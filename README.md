# X-factor calculation: a Dafny model

This project models the core of a web app that compares server offers. Each
offer has a price in USD, RMB or BDT, a duration in months and a bandwidth in
TB. The app converts the price to Bangladeshi taka and derives the monthly
cost, the cost per TB and the cost per GB. The *x-factor* is the server's
cost per GB divided by a base server's; with no base designated, a default
base of 1000 BDT for one month of 1 TB is used.

The model has one module per source file:

- `Calculations` (`calculations.dfy`) is the pricing engine. It is pure.
- `CurrencyRateModel` (`currency_rate.dfy`) is the CurrencyRate schema: a
  document, its validity predicate and the lookups on a collection.
- `CurrencyRatesRoute` (`currency_rates_route.dfy`) is `/api/currency-rates`.
  `RateStore` is a class over the collection. `Get` seeds an empty store.
  `Put` is the upsert loop, including its early return partway through.
- `ServerModel` (`server_model.dfy`) is the Server schema. `ServerStore.Save`
  validates the record first, then runs the pre-save hook (a loop that
  clears every other record's base flag), then writes the record.
- `ServersRoute` (`servers_route.dfy`) is `/api/servers`:
  - the rate-dictionary loop;
  - GET, which recomputes every stored server's derived fields;
  - POST, which checks the body, prices the new server and saves it.
- `ServerList` (`server_list.dfy`) is the list component:
  - the sort state and the comparator;
  - the sorted copy, modelled as a stable insertion sort that uses the
    component's comparator, in place of `Array.prototype.sort`;
  - the edit-form state, as the class `ServerListComponent`.
- `SummarySection` (`summary_section.dfy`) is the summary's aggregates.
- `ServerForm` (`server_form.dfy`) is the add-server form:
  - the `getRatesObject` loop;
  - the preview gate;
  - the submission, composed with the modelled POST.
- `Wrappers` (`wrappers.dfy`) holds `Option` and the `Response` of a handler.
  A `Response` is either `Success(data)` or `Failure(status, error)`.

Money and bandwidth are exact `real`s. The database is a sequence of
records and the handlers are methods on it. The database's generated id and
its clock are parameters (`newId`, `now`). So are the results of the
database queries (GET's `servers` list, the rate documents).

Three of the source's divisions have no guard: by duration, by bandwidth,
and by the base's cost per GB. Callers must show these divisors are non-zero
through `Measurable` and `XFactorDefined`. Schema-valid records always meet
the first two (`ServerModel.SchemaValidIsMeasurable`).

## Model

| member | source | states |
|---|---|---|
| Calculations.ConvertToBDT | src/lib/calculations.ts:35-44 | a BDT amount is returned unchanged; any other amount is multiplied by its currency's rate, taken from the rates object or, if none is given, from the fallback 110/15 |
| Calculations.ConvertBDTIsIdentity | src/lib/calculations.ts:40 | a BDT amount converts to itself whatever rates are supplied |
| Calculations.ConvertForeign | src/lib/calculations.ts:22-43 | with no rates object USD is worth 110 and RMB 15; with one, its own rates apply |
| Calculations.CalculateServerCosts | src/lib/calculations.ts:46-58 | price in BDT is price × rate; monthly × duration = price in BDT; per-TB × bandwidth = monthly; per-GB × 1024 = per-TB |
| Calculations.CostsArePositive | src/lib/calculations.ts:46-58 | positive price, duration, bandwidth and rate give four strictly positive cost fields |
| Calculations.CalculateXFactor | src/lib/calculations.ts:60-76 | exactly 1 when a base is given and all four raw fields equal it; otherwise the x-factor times the base's cost per GB is the server's cost per GB |
| Calculations.XFactorOfBaseIsOne | src/lib/calculations.ts:62-68 | any server measured against itself as base has x-factor 1 |
| Calculations.XFactorAgainstDefaultBase | src/lib/calculations.ts:28-75 | with no base, the x-factor is the cost per TB divided by 1000 |
| Calculations.XFactorIsCostPerTBRatio | src/lib/calculations.ts:70-75 | off the short-circuit the 1024 cancels: the x-factor is the ratio of the costs per TB |
| Calculations.XFactorRanksByCostPerTB | src/lib/calculations.ts:70-75 | against a base with a positive cost per TB, x-factor above 1 iff the server's cost per TB is higher, below 1 iff lower |
| Calculations.CostsScaleWithPrice | src/lib/calculations.ts:46-50 | multiplying the price by k multiplies all four cost fields by k |
| Calculations.XFactorScalesWithPrice | src/lib/calculations.ts:72-75 | off the short-circuit, multiplying the price by k multiplies the x-factor by k |
| Calculations.CalculateServerWithXFactor | src/lib/calculations.ts:78-86 | the four cost fields are those of calculateServerCosts and the x-factor that of calculateXFactor, for the same server, base and rates; a server that is its own base gets 1 |
| Calculations.ExampleFiftyDollarsTwoTB | src/lib/calculations.ts:46-85 | 50 USD at 124, 1 month, 2 TB gives 6200, 6200, 3100, 3100/1024 and x-factor 3.1, both with no base and with the default base passed explicitly |
| CurrencyRateModel.EntrySchemaValid | src/models/CurrencyRate.ts:10-24 | a document passes the schema when its code is USD or RMB and its rate is at least 0 |
| CurrencyRateModel.CollectionValid | src/models/CurrencyRate.ts:10-24 | every document passes the schema and no two documents share a code (the unique index) |
| CurrencyRateModel.Lookup | src/models/CurrencyRate.ts:11-16 | a `findOne` by code: none exactly when no document has the code, and a found rate belongs to a document with that code |
| CurrencyRateModel.LookupIsFirst | src/models/CurrencyRate.ts:11-16 | the rate found is the first document's with that code |
| CurrencyRateModel.LookupIsLastRate | src/models/CurrencyRate.ts:15 | under the unique index the first and the last document for a code coincide |
| CurrencyRateModel.AtMostTwoEntries | src/models/CurrencyRate.ts:11-16 | the USD/RMB enum and the unique index allow at most two documents |
| CurrencyRateModel.NoBDTEntry | src/models/CurrencyRate.ts:13 | a valid collection has no BDT document |
| CurrencyRatesRoute.Upsert | src/app/api/currency-rates/route.ts:57-61 | an existing code keeps the collection's size; an absent code is appended as a new document |
| CurrencyRatesRoute.UpsertSetsRate | src/app/api/currency-rates/route.ts:57-61 | after the upsert the code holds the new rate and every other code keeps its old rate |
| CurrencyRatesRoute.UpsertKeepsUnique | src/app/api/currency-rates/route.ts:57-61 | an upsert keeps the codes unique |
| CurrencyRatesRoute.UpsertKeepsSchema | src/app/api/currency-rates/route.ts:57-61 | upserting a schema-valid document into a schema-valid collection keeps it schema-valid |
| CurrencyRatesRoute.ValidInput | src/app/api/currency-rates/route.ts:50 | an element is accepted when its code is non-empty and its rate is present, non-zero and positive |
| CurrencyRatesRoute.ApplyAll | src/app/api/currency-rates/route.ts:47-64 | the collection after the elements are upserted one after the other, in input order |
| CurrencyRatesRoute.FirstInvalid | src/app/api/currency-rates/route.ts:47-55 | the index of the first element with a missing currency or a missing, zero or negative rate; every earlier element is valid |
| CurrencyRatesRoute.UpdatedEntries | src/app/api/currency-rates/route.ts:46-63 | one updated document per input element, in input order, with that element's code and rate |
| CurrencyRatesRoute.LastInputWins | src/app/api/currency-rates/route.ts:47-64 | elements are applied in order: a code's rate is the last element's for it, and codes no element names keep their rate |
| CurrencyRatesRoute.ApplyAllKeepsSchema | src/app/api/currency-rates/route.ts:47-64 | when every element names USD or RMB, the collection stays schema-valid |
| CurrencyRatesRoute.SeedIsSchemaValid | src/app/api/currency-rates/route.ts:12-19 | the seed documents USD 124 and RMB 17.5 pass the schema |
| CurrencyRatesRoute.RateStore.Get | src/app/api/currency-rates/route.ts:5-21 | an empty store becomes exactly USD 124, RMB 17.5; a non-empty one is unchanged; the answer is the store's documents |
| CurrencyRatesRoute.RateStore.Put | src/app/api/currency-rates/route.ts:31-66 | a missing rates array gives 400 and no change; otherwise the elements before the first invalid one are applied, and the answer is 400 if there is an invalid one, else the updated documents |
| ServerModel.SchemaValid | src/models/Server.ts:20-50 | the schema's validators: a non-empty name, a price of at least 0, a duration of at least 1 and a bandwidth of at least 0.1 |
| ServerModel.Written | src/models/Server.ts:79-89 | the write of `save`: a record with a stored id replaces it in place, otherwise the record is appended |
| ServerModel.Saved | src/models/Server.ts:79-89 | a successful save: the pre-save hook clears the other base flags when the record is base, then the write |
| ServerModel.Raw | src/app/api/servers/route.ts:33-38 | the four raw fields the engine reads, taken from the record |
| ServerModel.WithCalculation | src/app/api/servers/route.ts:42-45 | the spread replaces the five derived fields and keeps every other field |
| ServerModel.NewServer | src/models/Server.ts:71-74 | a new document carries the given fields and calculation and is not base |
| ServerModel.SchemaValidIsMeasurable | src/models/Server.ts:41-50 | duration ≥ 1 and bandwidth ≥ 0.1 rule out division by zero |
| ServerModel.FirstBaseIndex | src/app/api/servers/route.ts:20 | the index of the first record flagged base, with no base before it, or none when no record is base |
| ServerModel.BaseDataOf | src/app/api/servers/route.ts:19-29 | the base data is none iff no record is base, else the four raw fields of the first base record |
| ServerModel.ClearOtherBases | src/models/Server.ts:83-86 | the hook changes only the base flag, and keeps it only on the record with the saved id |
| ServerModel.SaveBaseLeavesOnlyIt | src/models/Server.ts:80-86 | after saving a base record, a record is base exactly when it is the saved one |
| ServerModel.SaveNonBaseKeepsOthers | src/models/Server.ts:81-88 | saving a non-base record leaves every other record untouched |
| ServerModel.SaveIsIdempotent | src/models/Server.ts:80-89 | saving the same record twice gives the same collection as saving it once |
| ServerModel.SaveKeepsAtMostOneBase | src/models/Server.ts:79-89 | a save keeps ids unique and at most one base |
| ServerModel.ServerStore.Save | src/models/Server.ts:20-89 | the save succeeds exactly when the schema accepts the record; on success the collection becomes hook-then-write, otherwise it is unchanged; the store invariant holds |
| ServersRoute.RateMapOf | src/app/api/servers/route.ts:14-17 | the dictionary from USD 110 and RMB 15, with each document in turn overwriting its own code |
| ServersRoute.RateMapLookup | src/app/api/servers/route.ts:14-17 | the dictionary maps each stored code to its last document's rate, and USD or RMB with no document to the default |
| ServersRoute.RouteRates | src/app/api/servers/route.ts:14-17 | USD and RMB are each the last stored rate, or 110 and 15 when none is stored |
| ServersRoute.BuildRateMap | src/app/api/servers/route.ts:14-17 | the loop builds the dictionary of RateMapOf |
| ServersRoute.Recomputed | src/app/api/servers/route.ts:32-46 | one entry per stored server |
| ServersRoute.Get | src/app/api/servers/route.ts:7-51 | the answer is the stored list recomputed against the current rates and the list's base |
| ServersRoute.RecomputeKeepsRecords | src/app/api/servers/route.ts:32-46 | each entry keeps every stored field but the derived ones, which are the engine's fresh output; the base flag is kept |
| ServersRoute.RecomputedBaseIsOne | src/app/api/servers/route.ts:20-46 | in GET's answer the first base server has x-factor 1 |
| ServersRoute.RecomputeIgnoresStoredDerived | src/app/api/servers/route.ts:32-46 | lists that differ only in stored derived fields get the same answer |
| ServersRoute.SameBaseData | src/app/api/servers/route.ts:20-29 | such lists have the same base index and base data |
| ServersRoute.PostError | src/app/api/servers/route.ts:68-82 | no error iff name and currency are non-empty and price, duration and bandwidth are present and positive; "All fields are required" iff some field is missing or falsy |
| ServersRoute.ParseCurrency | src/models/Server.ts:36-40 | only the codes USD, RMB and BDT are accepted, each as its own currency |
| ServersRoute.CreatedServer | src/app/api/servers/route.ts:103-122 | the new document's raw fields, name, link, id and creation time are the body's and the given ones, its derived fields are calculateServerWithXFactor of its raw fields against the first base and the current rates, and it is not base |
| ServersRoute.Post | src/app/api/servers/route.ts:61-137 | a failed check gives 400 and no change; a currency outside the enum gives 500 and no change; otherwise the priced server is appended if the schema accepts it, else 500 and no change |
| ServersRoute.GuardsWeakerThanSchema | src/app/api/servers/route.ts:76-124 | a half-month duration passes both checks but fails the schema, so that POST answers 500 |
| ServerList.NextSort | src/components/ServerList.tsx:33-40 | the clicked field becomes current; clicking the current field flips the direction, and clicking another field sorts it ascending |
| ServerList.SortTwiceRestores | src/components/ServerList.tsx:33-40 | two clicks on the current field restore the original state |
| ServerList.SortNewFieldTwiceIsDescending | src/components/ServerList.tsx:33-40 | two clicks on a new field sort it descending |
| ServerList.Compare | src/components/ServerList.tsx:184-186 | -1, 0 or 1; -1 exactly when the first key sorts first in the chosen direction, 0 exactly when neither key is less |
| ServerList.CompareZeroIffEqual | src/components/ServerList.tsx:184-186 | keys of the same kind compare as 0 exactly when equal |
| ServerList.CompareIsAntisymmetric | src/components/ServerList.tsx:184-186 | swapping the keys, or the direction, negates the result |
| ServerList.SortKey | src/components/ServerList.tsx:140-182 | the value each of the nine sort fields compares: the lower-cased name, the stored number, the position in the unsorted list, or a USD conversion |
| ServerList.IndexOf | src/components/ServerList.tsx:165-169 | the first position of the record, or -1 when it is absent |
| ServerList.Insert | src/components/ServerList.tsx:137 | one insertion step adds exactly the one element |
| ServerList.SortBy | src/components/ServerList.tsx:137 | the sorted copy is a permutation of the input |
| ServerList.InsertKeepsSorted | src/components/ServerList.tsx:137-187 | inserting into a sorted list keeps it sorted by the comparator |
| ServerList.SortByIsSorted | src/components/ServerList.tsx:137-187 | the output has no pair out of order for the comparator |
| ServerList.SortOfSortedIsIdentity | src/components/ServerList.tsx:137-187 | a list already in order for the comparator is returned unchanged |
| ServerList.SortIsIdempotent | src/components/ServerList.tsx:137-187 | sorting twice gives the same as sorting once |
| ServerList.SortedServersIsPermutation | src/components/ServerList.tsx:137 | the sorted list has the same elements, and as many, as the input |
| ServerList.SortedServersIsOrdered | src/components/ServerList.tsx:140-186 | ascending output is non-decreasing and descending output non-increasing in the selected key |
| ServerList.SlNoKeyIsPosition | src/components/ServerList.tsx:165-169 | in a list of distinct records the SL No key is the record's position |
| ServerList.SlNoAscendingKeepsOrder | src/components/ServerList.tsx:165-169 | sorting a list of distinct records by SL No ascending gives back the input order |
| ServerList.EditFormOf | src/components/ServerList.tsx:42-52 | the form copies name, price, currency code, duration and bandwidth, and takes the link if present, else '' |
| ServerList.ApplyChange | src/components/ServerList.tsx:130-135 | `{ ...prev, [field]: value }`: the form with one field replaced |
| ServerList.ChangeTouchesOnlyItsField | src/components/ServerList.tsx:130-135 | a change sets its own field to its value and leaves every other field as it was |
| ServerList.ServerListComponent.constructor | src/components/ServerList.tsx:20-30 | sorting starts on x-factor, ascending, with nothing being edited and the empty form |
| ServerList.ServerListComponent.HandleSort | src/components/ServerList.tsx:33-40 | the sort state becomes NextSort of the old state |
| ServerList.ServerListComponent.HandleEdit | src/components/ServerList.tsx:42-52 | the server is being edited, and the form is that server's |
| ServerList.ServerListComponent.HandleCancelEdit | src/components/ServerList.tsx:54-64 | nothing is edited, and the form is reset to '', 0, USD, 1, 0, '' |
| ServerList.ServerListComponent.HandleEditFormChange | src/components/ServerList.tsx:130-135 | only the named field of the form changes |
| ServerList.ServerListComponent.SortedCopy | src/components/ServerList.tsx:137-187 | a permutation of the list, ordered by the current field and direction |
| SummarySection.SumBy | src/components/SummarySection.tsx:16-18 | `reduce` from 0 adding one value per server, in list order |
| SummarySection.MinBy | src/components/SummarySection.tsx:19 | the minimum is at most every value and is one of them |
| SummarySection.SummaryOf | src/components/SummarySection.tsx:11-20 | nothing for an empty list; otherwise the count, the sums of monthly cost and bandwidth, the averages (as average × count = sum) and the lowest cost per GB |
| SummarySection.SumByPermutation | src/components/SummarySection.tsx:16-18 | a sum does not depend on the order of the list |
| SummarySection.MinByPermutation | src/components/SummarySection.tsx:19 | the minimum does not depend on the order of the list |
| SummarySection.SummaryIgnoresOrder | src/components/SummarySection.tsx:16-20 | every aggregate is unchanged by reordering the list |
| ServerForm.RatesObjectOf | src/components/ServerForm.tsx:27-34 | the rates object from USD 110 and RMB 15, with each USD or RMB document in turn setting its rate |
| ServerForm.RatesObjectIsLastRate | src/components/ServerForm.tsx:28-33 | the last USD and the last RMB document win; a currency with none keeps 110 or 15; other codes are ignored |
| ServerForm.FormAndRouteRatesAgree | src/components/ServerForm.tsx:27-34 | the form and the servers route turn the same documents into the same rates |
| ServerForm.GetRatesObject | src/components/ServerForm.tsx:27-34 | the loop gives the rates object; with no documents this is the default 110/15 |
| ServerForm.FormRaw | src/components/ServerForm.tsx:57-62 | the offer the preview prices is the form's price, currency, duration and bandwidth, and it is measurable |
| ServerForm.PreviewReady | src/components/ServerForm.tsx:37-44 | the gate: price, duration and bandwidth present and positive |
| ServerForm.Preview | src/components/ServerForm.tsx:36-70 | null exactly when price, duration or bandwidth is missing or not positive; otherwise calculateServerWithXFactor of the form's offer against the list's first base and the form's rates object |
| ServerForm.SubmitBody | src/components/ServerForm.tsx:82-89 | the JSON body: name, price, currency code, duration and bandwidth from the form, and no link |
| ServerForm.SubmitPassesGuardsIffReady | src/components/ServerForm.tsx:82-89 | the submitted body passes POST's checks exactly when the preview gate passes and the name is filled in |
| ServerForm.PreviewIsWhatPostStores | src/components/ServerForm.tsx:36-89 | when the form sees the same base and rate documents as the route, the preview equals the derived fields POST stores |
| ServerForm.ServerFormComponent.constructor | src/components/ServerForm.tsx:14-23 | the form starts empty with currency USD and no preview |
| ServerForm.ServerFormComponent.SetFormData | src/components/ServerForm.tsx:127 | an input's handler replaces the form data |
| ServerForm.ServerFormComponent.RefreshPreview | src/components/ServerForm.tsx:36-70 | the preview becomes Preview of the form, the list and the rate documents |
| ServerForm.ServerFormComponent.HandleSubmit | src/components/ServerForm.tsx:72-113 | success exactly when the checks pass and the schema accepts the server; on success the server is appended and the form reset; on failure store, form and preview are unchanged |

## Left out

- Database and HTTP plumbing are left out: connecting, `find`/`findOne`/`insertMany`/`findOneAndUpdate`/`save` as network calls, JSON and status encoding. The collections are sequences and the answers are `Response` values.
- Handlers that throw, such as database errors, are not modelled. So the 500 answers of GET (both routes) and of PUT are not modelled, except the 500 from a failed save in POST.
- Concurrency is left out: the hook's `updateMany` and the write are separate database operations, and nothing between them is modelled.
- Floating point is left out: IEEE rounding, NaN and Infinity are not modelled. Division by zero is ruled out by preconditions (`Measurable`, `XFactorDefined`). So a base whose rate is 0, which the rate schema allows, is excluded rather than priced at Infinity.
- Timestamps are left out: `updatedAt` is not modelled at all. `createdAt` is a stored field set from `now`.
- The `trim` on name and link is not modelled.
- GET's `sort({ createdAt: -1 })` is an input: the handler takes the query's result in the order given.
- POST's `findOne({ isBaseServer: true })` is modelled as the first base record of the collection.
- PUT's `findOneAndUpdate` runs no validators, so a rate document's code is kept as a string. The enum is proved to hold only when every element names USD or RMB.
- The edit route's `findByIdAndUpdate` in `/api/servers/[id]` runs no validators, so it can store a record the schema rejects. It is not part of this model, and `ServerStore.Valid` (all records schema-valid) holds only because every writer modelled here goes through `Save`.
- Neither the rate store nor the server store is atomic, as in the code:
  - PUT leaves the elements before the first invalid one applied.
  - Designating a base is two writes. No transaction is modelled.
- `toLowerCase` and `convertBDTToUSD` are not defined in the code modelled. They are the parameters `lower` and `toUSD` of the sort key.
- `ServerList.TextLess` compares characters as Unicode scalar values. JavaScript compares UTF-16 code units, and the two orders differ only for characters outside the Basic Multilingual Plane.
- `ServerList.IndexOf`: `indexOf` compares objects by reference, the model compares records by value. So the SL No lemmas require distinct records.
- `ServerList.SortBy` models `Array.prototype.sort` as a stable insertion sort. JavaScript specifies a stable sort, so the result is the same for any comparator that is a consistent order, which this one is.
- `ServerList.ApplyChange`: `handleEditFormChange` accepts any field name and value. The model takes one of the six form fields with a value of that field's type.
- `handleSaveEdit`, `handleDelete` and `handleMakeBaseServer` are left out. They call the `/api/servers/[id]` and `/set-base` routes, which are not part of this model, and a confirmation dialog.
- String parsing is left out: `parseFloat`/`parseInt` results are taken as given, with None standing for an empty or non-numeric input. The form's `company` is sent but POST ignores it.
- `alert`, `console.error`, the loading flags, JSX rendering, formatting (`formatBDT`, `formatBandwidth`), the theme context and the configuration are presentation or I/O.
- `SummarySection.SummaryOf`: the `servers.length > 0 ? … : 0` fallbacks cannot be reached after the early return for an empty list, so they are not modelled separately.
