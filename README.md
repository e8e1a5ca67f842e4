# Auto-insurance quote engine in Dafny

This project models the core of a car-insurance web application. The backend prices a
policy for a registered vehicle, and an admin panel edits insurances and the product
catalogue. A vehicle service maps the national vehicle registry's answers onto stored
vehicles. On the client, a memo table caches quotes, and the customer-details step of the
wizard validates and clamps its fields.

The modules follow the program's files:

- `wrappers.dfy`: `Option` and `Result`.
- `models.dfy`: the Mongoose schemas as datatypes (`Vehicle`, `Product`, `Customer`,
  `Riders`, `Quote`, `Insurance`). The three collections are classes with a `docs` sequence
  in insertion order. `findOne`/`findById` is `FindFirst`, and a unique index is `Distinct`.
- `premium.dfy` (`Premium`), from `backend/services/insuranceService.js`:
  - The three calculators are methods that update a local accumulator, as the source does.
  - Each calculator is proved equal to a specification function: `BasePrice`,
    `AdditionalServicesPrice`, `Discounts`.
  - `BasePrice` is the product's base price run through the list of adjustments that
    apply (`AppliedSteps`), one factor per step (`Factor`).
  - The same module holds the quote (`calculateInsurance`) and the draft insurance record
    (`createInsurance`).
- `admin.dfy` (`Admin`), from `backend/controllers/adminController.js`: the insurance edit,
  the product merge and the catalogue seeding.
- `vehicles.dfy` (`Vehicles`), from `backend/services/vehicleService.js`: the type mapping,
  the VIN-keyed upsert and the store-first registry lookup.
- `quotecache.dfy` (`QuoteCache`), from `frontend/src/services/insuranceService.js`: the
  cache key, the memo table (a class with a `map` field) and the fallback quote.
- `customerform.dfy` (`CustomerForm`), from `frontend/src/pages/CustomerForm.js`:
  - `trim`, the phone and e-mail patterns, and the error map.
  - The form as a class whose handlers update `customerInfo` and `errors`.

Amounts in product pricing, vehicle measures and rider prices are exact `real`s. Every
value the program rounds with `Math.round` becomes an `int`, where `Math.round(x)` is
`(x + 0.5).Floor`. JavaScript truthiness of an optional field ("present and not 0 / empty")
is `Option` together with `TruthyInt`/`TruthyReal`/`TruthyString`. Four things become
parameters:

- the current year;
- the ObjectId validity check (`idValid`, `vehicleIdValid`);
- the ids the database assigns;
- the answers of the registry and of the server (`None` when the request fails).

## Model

| member | source | states |
|---|---|---|
| `Premium.Round` | backend/services/insuranceService.js:86 | `Math.round` gives the integer within half a unit below or above: `r <= x + 0.5 < r + 1` |
| `Premium.RoundShift` | backend/services/insuranceService.js:38 | rounding commutes with adding a whole number |
| `Premium.RoundMonotone` | backend/services/insuranceService.js:86 | rounding never reverses an order |
| `Premium.ExperienceFactor` | backend/services/insuranceService.js:77-79 | the experience factor is at least 0.8, at least `1 - 0.02·exp`, one of the two, at most 1 for non-negative experience, and exactly 0.8 from 10 years on |
| `Premium.CalculateBasePrice` | backend/services/insuranceService.js:53-87 | the accumulator method returns exactly `BasePrice`: the rounding of the product's base price times the factor of each applied step, in order |
| `Premium.WeightAlwaysApplied` | backend/services/insuranceService.js:54-57 | the weight step is always applied, first, with factor `(weight/1000)·weightMultiplier` |
| `Premium.AppliedStepsGuards` | backend/services/insuranceService.js:59-84 | each later step applies exactly on its guard: engine volume iff not electric and the volume is truthy; age iff the year is truthy; owners iff the count is truthy; experience and accidents iff the customer is present with a truthy field |
| `Premium.AppliedStepsOrdered` | backend/services/insuranceService.js:57-84 | the applied steps start with the weight and follow the source's order, each at most once |
| `Premium.FactorBounds` | backend/services/insuranceService.js:65-84 | for a registration year no later than the current year and a non-negative age multiplier, the age factor is at least that multiplier; for a non-negative owner count and owner multiplier, the owner factor is at least that multiplier; the experience factor is at least 0.8, and at most 1 for non-negative experience; the accidents factor is at least 1 for a non-negative count |
| `Premium.NoCustomerNoCustomerFactors` | backend/services/insuranceService.js:77-84 | a null customer gets neither customer factor |
| `Premium.RunAgree` | backend/services/insuranceService.js:57-84 | two sets of inputs whose factors agree on every step to be taken give the same running price |
| `Premium.SkippedEngineVolumeIgnoresMultiplier` | backend/services/insuranceService.js:59-62 | when the engine-volume step is skipped, the engine-volume multiplier has no effect on the price: the step is left out, not applied as ×1 |
| `Premium.ZeroEngineVolumeIsAbsent` | backend/services/insuranceService.js:60 | an engine volume of 0 prices exactly like a missing one |
| `Premium.FactorMonotone` | backend/services/insuranceService.js:57-84 | with plausible inputs each applied factor is positive and does not decrease when the multipliers increase |
| `Premium.RunMonotone` | backend/services/insuranceService.js:54-84 | a smaller positive start and no larger multipliers give a smaller positive running price |
| `Premium.PlausibleBasePricePositive` | backend/services/insuranceService.js:54-86 | with plausible inputs the running price is positive and the base price is not negative |
| `Premium.BasePriceMonotone` | backend/services/insuranceService.js:54-86 | a product whose base price and multipliers are no higher never gives a higher base price |
| `Premium.CalculateAdditionalServicesPrice` | backend/services/insuranceService.js:90-119 | the accumulator method returns `AdditionalServicesPrice`: 0 without a riders object, otherwise the rounding of the sum of the KASKO (`vehiclePrice·0.05`, missing as 0), theft (`weight·0.5`), 444 and 920 terms of the enabled riders |
| `Premium.TheftIndependent` | backend/services/insuranceService.js:104-106 | switching the theft rider leaves the other three terms alone and changes the sum by exactly its own term |
| `Premium.KaskoIndependent` | backend/services/insuranceService.js:98-101 | switching KASKO leaves the other three terms alone and changes the sum by exactly its own term |
| `Premium.RidersPriceDecomposition` | backend/services/insuranceService.js:108-118 | the rider price is the rounded variable part plus 444 and 920 for the flat riders that are on |
| `Premium.Discounts` | backend/services/insuranceService.js:122-139 | the discount is in {0, 500, 1500, 2000}; it is at least 1500 iff the vehicle is electric, and it contains the 500 iff a birth year is given and the customer is over 30 |
| `Premium.CalculateDiscounts` | backend/services/insuranceService.js:122-139 | the accumulator method returns `Discounts` |
| `Premium.QuoteOf` | backend/services/insuranceService.js:26-45 | the quote carries the three calculators' results and is balanced: total = base + riders − discounts |
| `Premium.CalculateInsurance` | backend/services/insuranceService.js:8-50 | an invalid id, a missing vehicle or no active product of the type each fail with their own error; it succeeds exactly when all three are found, with the quote of the first matching vehicle and the first active product of that type |
| `Premium.QuoteIsBalanced` | backend/services/insuranceService.js:38 | rounding the total changes nothing: it is already base + riders − discounts |
| `Premium.ElectricDiscountIsFlat` | backend/services/insuranceService.js:126-128 | an electric vehicle always gets 1500 on top of the age discount |
| `Premium.CreateInsurance` | backend/services/insuranceService.js:142-168 | on success one draft insurance is appended, carrying the request's vehicle, package, customer and riders and, as pricing, exactly the quote `QuoteOf` calculates for the first matching vehicle and the first active product of the package; on failure nothing is stored; it succeeds exactly when the calculation does |
| `Admin.StatusCode` | backend/controllers/adminController.js:30-79 | a success answers the code it carries (201 for the seeding); a missing record answers 404, an already seeded catalogue 400, and an invalid id or a failed validation 500 |
| `Admin.PatchedQuote` | backend/controllers/adminController.js:49-63 | `additionalServicesPrice` never changes; each supplied field replaces the old one; with any field supplied the total is recomputed from the new parts; with none the pricing is unchanged |
| `Admin.EditedInsurance` | backend/controllers/adminController.js:43-63 | a truthy status replaces the old one; the pricing is patched only when a pricing object is given; all other fields stay |
| `Admin.UpdateInsurance` | backend/controllers/adminController.js:30-79 | an invalid id and a missing insurance fail and save nothing; every failure answers 404 or 500; an edited status outside the schema enum is refused on save and nothing is saved; otherwise exactly the found document is replaced by its edit |
| `Admin.PatchKeepsBalanced` | backend/controllers/adminController.js:49-63 | an edit keeps a balanced quote balanced |
| `Admin.PatchIdempotent` | backend/controllers/adminController.js:49-63 | applying the same pricing edit twice is the same as once |
| `Admin.PatchBothFields` | backend/controllers/adminController.js:50-62 | supplying both fields equals applying the base price and then the discounts; the final total is new base + riders − new discounts |
| `Admin.MergedProduct` | backend/controllers/adminController.js:152-157 | name and description are replaced only by a truthy value, `active` whenever it is given; the id and type never change; given features or pricing are spread key by key over the old ones, and absent ones stay as they were |
| `Admin.UpdateProduct` | backend/controllers/adminController.js:139-173 | an invalid id and a missing product fail and save nothing, answering 500 or 404; otherwise exactly the found document is replaced by `MergedProduct` |
| `Admin.SpreadLaws` | backend/controllers/adminController.js:155-156 | spreading the same keys twice is the same as once, and spreading no keys changes nothing |
| `Admin.SpreadPricingKeys` | backend/controllers/adminController.js:156 | each of the six pricing keys takes the supplied value when present and keeps the old one otherwise |
| `Admin.SpreadFeaturesKeys` | backend/controllers/adminController.js:155 | each of the seven features keys takes the supplied value when present and keeps the old one otherwise |
| `Admin.MergeLaws` | backend/controllers/adminController.js:152-157 | a product edit is idempotent, and an edit supplying nothing leaves the product as it was |
| `Admin.RaisingBasePriceRaisesQuote` | backend/controllers/adminController.js:156 | raising only a product's base price never lowers a quote's base price |
| `Admin.Catalogue` | backend/controllers/adminController.js:217-287 | three active products under the given ids, each of a schema tier |
| `Admin.InitializeProducts` | backend/controllers/adminController.js:205-304 | with any product stored it refuses and changes nothing; otherwise the collection becomes exactly the three-tier catalogue and it answers 201 |
| `Admin.CatalogueFindsEveryTier` | backend/controllers/adminController.js:217-289 | after seeding, every tier has exactly one product, which the quote calculation's lookup finds |
| `Admin.TiersAreOrdered` | backend/controllers/adminController.js:231-283 | each tier's base price and multipliers are at least the previous tier's, and its property-damage limit is higher |
| `Admin.TierBasePricesOrdered` | backend/controllers/adminController.js:217-287 | for a plausible vehicle and customer a higher tier never quotes a lower base price |
| `Vehicles.DetermineVehicleTypeAsWritten` | backend/services/vehicleService.js:71-80 | as written, an inherited object name gives an inherited member instead of a type, and a missing kind gives a car |
| `Vehicles.InheritedKindEscapesEnum` | backend/services/vehicleService.js:73-79 | the kind "toString" maps outside the `type` enum |
| `Vehicles.DetermineVehicleType` | backend/services/vehicleService.js:71-80 | the three listed kinds map to car, motorcycle and trailer; any other kind, or none, maps to car |
| `Vehicles.DetermineVehicleTypeAgrees` | backend/services/vehicleService.js:73-79 | the corrected mapping agrees with the code as written on every kind that is not an inherited name |
| `Vehicles.OnlyListedKindsLeaveCar` | backend/services/vehicleService.js:73-79 | motorcycle and trailer come only from their own kinds |
| `Vehicles.Refreshed` | backend/services/vehicleService.js:44-54 | the registry record is stored verbatim; the type, brand, model, year, engine volume, weight and owner count are copied from their fields; the id, VIN and electric flag stay |
| `Vehicles.Upserted` | backend/services/vehicleService.js:57-61 | after the upsert the ids and VINs stay distinct, exactly one record has the VIN, it carries the refreshed data, a record is added only when the VIN was new, and every other record is unchanged |
| `Vehicles.SaveVehicleData` | backend/services/vehicleService.js:42-68 | a registration year that is NaN fails with `CastFailed` and stores nothing; otherwise the collection becomes `Upserted` and the returned vehicle is the stored record for the VIN |
| `Vehicles.GetVehicleInfoByVin` | backend/services/vehicleService.js:8-39 | a stored VIN is answered from the store with `Status: 1`, without a request and without change; otherwise the registry is asked, it succeeds iff the answer has `Status` 1 and `Data` and its date gives a year; a failed request, a rejected answer and a NaN year fail with their own errors; a successful answer is upserted and returned, and any failure saves nothing |
| `Vehicles.SavedAnswerIsServedFromStore` | backend/services/vehicleService.js:11-61 | once an answer is saved, its VIN is found in the store and serves that answer's data |
| `QuoteCache.CacheKeyDeterminesRequest` | frontend/src/services/insuranceService.js:77-79 | for ids and package names without `_`, two keys are equal iff the vehicle id, the package type and the joined customer-and-riders text are equal |
| `QuoteCache.MockBasePrice` | frontend/src/services/insuranceService.js:112-125 | the fallback base price is one of 15500, 17800, 19900 and 18000, and it is 18000 iff the package is not one of the tiers |
| `QuoteCache.MockDiscount` | frontend/src/services/insuranceService.js:149 | the fallback discount is 800 iff driving experience is over 5, else 0 |
| `QuoteCache.GenerateCacheKey` | frontend/src/services/insuranceService.js:77-79 | the key is the four parts joined by three underscores: it starts with the vehicle id and an underscore and ends with an underscore and the riders text |
| `QuoteCache.MockRidersAgainstServer` | frontend/src/services/insuranceService.js:132-146 | the fallback rider price equals the server's, except that enabled theft costs a flat 1200 instead of half the weight and natural disaster and animal collision cost 44 and 20 less |
| `QuoteCache.MockQuote` | frontend/src/services/insuranceService.js:151-156 | the fallback quote carries the fallback base price, the rounded fallback rider price and the fallback discount |
| `QuoteCache.MockQuoteBalanced` | frontend/src/services/insuranceService.js:153-155 | the fallback total is rounded from the unrounded rider price, yet equals base + rounded riders − discount |
| `QuoteCache.MockBaseBelowCatalogue` | frontend/src/services/insuranceService.js:114-121 | each fallback base price is below the seeded catalogue's base price for the same tier |
| `QuoteCache.CalculateMock` | frontend/src/services/insuranceService.js:110-156 | the accumulator method returns `MockQuote` |
| `QuoteCache.Unwrap` | frontend/src/services/insuranceService.js:94-101 | with the api client's interceptor returning the body, the result is the body's quote when it has `data`, and `undefined` exactly when it has none |
| `QuoteCache.BodyWithoutDataMemoisesNothing` | frontend/src/services/insuranceService.js:89-104 | an answer without `data` caches `undefined`, and every later identical lookup returns `undefined` without a request |
| `QuoteCache.Memo` | frontend/src/services/insuranceService.js:86-106 | a stored key answers from the table without a request and leaves it unchanged; a new key is answered by the fetch and stored under the key; other keys are untouched |
| `QuoteCache.RepeatedLookupHits` | frontend/src/services/insuranceService.js:89-104 | a repeated identical lookup hits, makes no request and returns the first result |
| `QuoteCache.FailureMemoisesMock` | frontend/src/services/insuranceService.js:159-164 | a failed request stores the fallback quote, so later identical lookups return it whatever the server then answers |
| `QuoteCache.CalculationCache.Calculate` | frontend/src/services/insuranceService.js:83-166 | the result, the new table and whether a request was made are those of `Memo` on the key, with the server's answer or the fallback as the fetch |
| `QuoteCache.CalculationCache.Clear` | frontend/src/services/insuranceService.js:169-171 | the table is empty afterwards |
| `CustomerForm.Trim` | frontend/src/pages/CustomerForm.js:176-196 | the trimmed text is no longer than the text and neither starts nor ends with white space |
| `CustomerForm.TrimStartSpec` | frontend/src/pages/CustomerForm.js:176 | the start-trimmed text is a suffix of the text, everything cut off is white space, and it starts with a non-space |
| `CustomerForm.TrimEndSpec` | frontend/src/pages/CustomerForm.js:176 | the end-trimmed text is a prefix of the text, everything cut off is white space, and it ends with a non-space |
| `CustomerForm.TrimSpec` | frontend/src/pages/CustomerForm.js:176-196 | the trimmed text is a slice of the text with white space, and only white space, cut off at both ends, and it starts and ends with a non-space |
| `CustomerForm.TrimBlank` | frontend/src/pages/CustomerForm.js:176-186 | a text trims to nothing iff it is all white space |
| `CustomerForm.TrimIdempotent` | frontend/src/pages/CustomerForm.js:189-191 | trimming twice is trimming once |
| `CustomerForm.PhoneMatchIsTrimmed` | frontend/src/pages/CustomerForm.js:188-193 | a phone number the pattern accepts is neither blank nor changed by trimming, so the two phone messages never both apply |
| `CustomerForm.PhoneMatches` | frontend/src/pages/CustomerForm.js:188 | the phone pattern accepts exactly the non-empty texts of digits, with an optional leading `+`, that have 10 to 15 digits |
| `CustomerForm.SplitIsShaped` | frontend/src/pages/CustomerForm.js:195-196 | a split the e-mail pattern finds means no white space, exactly one `@` with something before it, and a `.` inside the domain |
| `CustomerForm.ShapeHasSplit` | frontend/src/pages/CustomerForm.js:195-196 | every text of that shape has a split the pattern accepts |
| `CustomerForm.EmailMatches` | frontend/src/pages/CustomerForm.js:195-196 | the e-mail pattern accepts exactly the texts with that shape by characters |
| `CustomerForm.ErrorMap` | frontend/src/pages/CustomerForm.js:174-198 | each field is in the map iff its check failed; the phone message is the "enter" one for a blank phone and the "correct" one for a malformed phone |
| `CustomerForm.FormErrors` | frontend/src/pages/CustomerForm.js:173-198 | name, surname and address have an error iff blank; the phone has one iff the trimmed phone does not match, with the message for blank or malformed; the e-mail has one iff it is non-blank and the trimmed text does not match |
| `CustomerForm.ValidIff` | frontend/src/pages/CustomerForm.js:173-201 | the error map is empty iff name, surname and address are filled in, the phone matches and the e-mail, if given, matches |
| `CustomerForm.Clamp` | frontend/src/pages/CustomerForm.js:168 | the clamped value lies in the range, is the value itself when in range, the low end when below and the high end when above |
| `CustomerForm.ClampIdempotent` | frontend/src/pages/CustomerForm.js:168 | clamping twice is clamping once |
| `CustomerForm.Bounds` | frontend/src/pages/CustomerForm.js:165-166 | the birth year ranges over [1900, current year], every other numeric field over [0, 50] |
| `CustomerForm.Form.HandleChange` | frontend/src/pages/CustomerForm.js:148-156 | the typed value is stored in its field; a field that shows an error has that error blanked and no other; otherwise the errors stay |
| `CustomerForm.Form.HandleCustomerTypeChange` | frontend/src/pages/CustomerForm.js:159-161 | only the customer type changes |
| `CustomerForm.Form.HandleNumberChange` | frontend/src/pages/CustomerForm.js:164-170 | the field gets the value clamped to its bounds, and nothing else changes |
| `CustomerForm.Form.ValidateForm` | frontend/src/pages/CustomerForm.js:173-202 | the customer is unchanged, the errors shown become `FormErrors` of the customer, and the result is true iff no error was found |

## Left out

- Persistence is not modelled: Mongoose queries, `save`, `insertMany` and `countDocuments`. The collections are in-memory sequences, and `findOne` takes the first match in insertion order.
- HTTP is not modelled: routes, controllers and status handling beyond `Admin.StatusCode`. Neither are the axios calls to the registry and to the server, whose answers are parameters.
- The clock is not modelled: `new Date().getFullYear()` is the `currentYear` parameter. `lastUpdated`, `createdAt`, `updatedAt` and the product's `pre('save')` hook are left out.
- Date parsing is not modelled. The registry's date of first registration arrives as the result of `new Date(...).getFullYear()`: a year, or `None` where that result is NaN (a missing or unparseable date). A `null` date, which JavaScript reads as 1970, is part of that parsing.
- `lastUpdated` is not a field of the Vehicle schema, and strict mode drops it from the `findOneAndUpdate` update. The model has no such field.
- The VIN setters (`trim`, `uppercase`), `brand`/`model` trimming and the `customerType` enum are not modelled. Neither are the other schema validators, except the Insurance `status` enum on save.
- Floating point is not modelled: reals are exact. NaN is excluded by preconditions. The vehicle's `weight` must be present for the base price, and for the theft rider when it is on (a missing weight gives NaN in JavaScript). In the fallback quote, an enabled KASKO rider must carry a `vehiclePrice` (`KaskoPriced`); the form always sends one.
- `JSON.stringify` of the customer and the riders is not modelled: the cache key takes those texts as parameters. Its property-order sensitivity is therefore not modelled either.
- QuoteCache.CalculationCache.Calculate: a lookup is atomic in the model. The source awaits the request between `has` and `set`, so two overlapping calls with the same key both miss, both make a request, and the later answer overwrites the earlier one. QuoteCache.RepeatedLookupHits holds only for calls that do not overlap.
- QuoteCache.CalculationCache.Calculate: the body's `data` is a quote or absent. A `data` of another shape (`null`, or an object with a truthy `data` of its own) is not modelled.
- QuoteCache.CacheKeyDeterminesRequest: only covers ids and package names without `_`. With an underscore in them two different requests can share a key.
- Vehicles.Refreshed: refreshes the type with the corrected mapping `DetermineVehicleType`. As written, a function-valued inherited kind such as "toString" or "constructor" is stored as that function's text, because `findOneAndUpdate` runs no enum validator. The kind "__proto__" finds `Object.prototype`, which Mongoose's String cast refuses, so that update throws and nothing is stored (see Findings and `Vehicles.InheritedKindEscapesEnum`).
- Premium.CreateInsurance: stores the customer and the riders as given. The Insurance schema's defaults, applied by `new Insurance(...)`, are not modelled: a missing rider becoming `{enabled: false}` (KASKO also with `vehiclePrice: 0`) and a missing `customerType` becoming `'physical'`. No member reads the stored copies, so pricing is unaffected.
- Admin.UpdateProduct: the spread of `product.features`/`product.pricing` is modelled on plain objects. What spreading a Mongoose subdocument copies is library behaviour and is not modelled.
- `electricVehicleDiscount` is carried in `Pricing` but, as in the engine, never read.
- `backend/routes/init.js` seeds a second catalogue with other prices; it is not part of this model. The model is parameterised by the product record.
- `updateInsuranceStatus`, `createProduct`, `deleteProduct`, `getAllProducts` and the admin-user bootstrap are not part of this model.
- Authentication (JWT, bcrypt) is not part of this model.
- The React pages and contexts are not part of this model, except the customer-form handlers. Display-only price arithmetic is not part of this model either.
- CustomerForm.Form.HandleChange: takes the field name as a datatype (`TextField`), and CustomerForm.Form.HandleNumberChange likewise (`NumberField`), rather than an arbitrary string. Input events for other names are not modelled.
- CustomerForm.IsSpace: JavaScript's white-space set over Dafny characters. UTF-16 surrogate pairs are not modelled.

## Findings

| source | as written | input that shows it | evidently intended | confidence | as-written member | corrected member |
|---|---|---|---|---|---|---|
| backend/services/vehicleService.js:73-79 | `typeMapping[kind] \|\| 'car'` looks the kind up in a plain object literal. A kind that names an inherited `Object.prototype` member finds that member, which is truthy and wins over the fallback. A function-valued member such as `toString` is stored as its text in the vehicle's `type`; `__proto__` gives `Object.prototype`, which the String cast refuses, so the update throws | a registry answer with `DruhVozidla` = "toString" | only the table's three own keys map to motorcycle or trailer; every other kind maps to car, inside the `type` enum | not executed | `Vehicles.DetermineVehicleTypeAsWritten` (shown by `Vehicles.InheritedKindEscapesEnum`) | `Vehicles.DetermineVehicleType` (related by `Vehicles.DetermineVehicleTypeAgrees`) |
