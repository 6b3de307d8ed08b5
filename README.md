# SmartFood nutrition normaliser in Dafny

SmartFood is an iOS app. It scans a product barcode and fetches the product from the Open Food Facts API. It turns the product JSON into a `Food` record and lets the user save that record in a local store. This project models the app's pure core, as Dafny datatypes, functions and lemmas:

- **The normaliser in `fetchNutritionInfo`.** It takes an already-decoded JSON payload and the scanned barcode. It returns a `Food` when the payload has a `product` object with a string `product_name` and an object `nutriments`, and nothing otherwise. The serving label defaults to `"N/A"` and the serving mass to 100 g. Calories and each of the fourteen nutrients are read from `"<stem>_100g"`, or 0 when that key is missing or not a number, and scaled by `grams / 100`. The percent of the daily value is read from `"<stem>_value"` as it is, and is absent when missing or not a number. Each unit comes from a fixed table.
- **`foodEntityToFood`.** It rebuilds a `Food` from a stored row. A missing string becomes `""`. A missing or undecodable nutrition blob becomes `NutritionFacts.empty`.
- **The record types** `Food`, `NutritionFacts` and `NutrientInfo`, and the canonical `empty` facts.

Files and modules:

- `wrappers.dfy` (`Wrappers`): `Option`, Swift's `T?`, with `GetOr` for `??`.
- `json_value.dfy` (`JsonValue`): the decoded JSON value and the casts `as? [String: Any]`, `as? String` and `as? Double`.
- `food_data.dfy` (`FoodData`): the record types, field access by nutrient name, and `Empty`.
- `content_view.dfy` (`ContentView`): the normaliser (`GetNutrientInfo`, `NormalisedFacts`, `FoodFromPayload`), the update of the view's `scannedFood`, and the stored-row conversions.
- `normaliser_properties.dfy` (`NormaliserProperties`): properties of the normaliser for every payload, and concrete payloads.

Inputs that cannot be computed become parameters. `UUID()` becomes an `id` or `freshId` argument. `JSONDecoder`/`JSONEncoder` become total functions `decode`/`encode`, where `None` means that the call threw.

Three behaviours of the code worth knowing:

- A payload without the product, its name or its nutriments produces no record, and the view keeps its previous `scannedFood`. No error value is raised.
- A numeric `serving_quantity` is used as it is: 0 makes every amount 0, and a negative quantity makes every non-zero amount negative. There is no fallback to 100 g.
- The normaliser tags vitamin D with the two characters U+00C2 U+00B5 followed by `g`. `empty` uses U+00B5 followed by `g`. So these two units differ.

## Model

| member | source | states |
|---|---|---|
| FoodData.Nutrients | SmartFood/SmartFood/Food.swift:19-35 | the fourteen nutrient fields, listed in declaration order, each equal to the field of that name |
| FoodData.FromNutrients | SmartFood/SmartFood/Food.swift:19-35 | facts built from calories and fourteen nutrients hold exactly those calories and list exactly those nutrients |
| FoodData.FactsAreCaloriesAndNutrients | SmartFood/SmartFood/Food.swift:19-35 | every nutrient occurs exactly once in the fixed order, and any facts value is rebuilt from its calories and its nutrient list |
| FoodData.Empty | SmartFood/SmartFood/Food.swift:43-62 | `empty` has 0 calories, every amount 0 and every percent absent; "g" for the eight gram nutrients, "mg" for the five milligram nutrients, "µg" for vitamin D |
| FoodData.EmptyUnitClassesPartition | SmartFood/SmartFood/Food.swift:47-60 | each nutrient is in exactly one unit class (grams, milligrams, or vitamin D in micrograms), and `empty`'s unit for it is "g", "mg" or "µg" exactly when it is in the gram class, the milligram class or is vitamin D |
| FoodData.AbsentPercentIsNotZero | SmartFood/SmartFood/Food.swift:37-41 | an absent percent of the daily value is a different value from a percent of 0 |
| ContentView.GetNutrientInfo | SmartFood/SmartFood/ContentView.swift:88-92 | the unit is the one passed in; the amount is the numeric `<key>_100g` value times grams/100, or 0 when that key is missing or not a number; the percent is present exactly when `<key>_value` is a number, and then equals it |
| ContentView.NormalisedFacts | SmartFood/SmartFood/ContentView.swift:94-110 | calories are `energy-kcal_100g` (or 0) times grams/100; each of the fourteen fields is what `getNutrientInfo` gives for that nutrient's stem and unit in the fixed table |
| ContentView.FoodFromPayload | SmartFood/SmartFood/ContentView.swift:80-120 | a record is produced exactly when the payload is an object whose `product` is an object with a string `product_name` and an object `nutriments`; the record carries the given id and barcode and the product name; the label is `serving_size` if it is a string, else "N/A"; the grams are `serving_quantity` if it is a number, else 100; the facts are normalised from `nutriments` at those grams |
| ContentView.ScannedFoodAfterFetch | SmartFood/SmartFood/ContentView.swift:80-122 | an unrecognised payload leaves `scannedFood` unchanged; a recognised one replaces it with the normalised record, which carries the scanned barcode and the fresh id |
| ContentView.FoodEntityToFood | SmartFood/SmartFood/ContentView.swift:158-175 | stored id, barcode, name and label are kept, and missing ones become the fresh id or ""; grams are copied; missing or undecodable facts become `empty`, and decodable ones are the decoded facts |
| ContentView.StoredRow | SmartFood/SmartFood/ContentView.swift:129-136 | the saved row holds the record's id, barcode, name, serving label and serving grams, and the encoder's result for its facts |
| ContentView.StoredRowReadsBack | SmartFood/SmartFood/ContentView.swift:129-175 | reading back a saved row gives the same record when the decoder inverts the encoder; it gives the record with `empty` facts when encoding failed |
| NormaliserProperties.AmountIsScaled | SmartFood/SmartFood/ContentView.swift:88-92 | each nutrient's amount is its `_100g` value (0 when absent or not a number) times grams/100 |
| NormaliserProperties.HundredGramsKeepsRawAmounts | SmartFood/SmartFood/ContentView.swift:89-95 | with a 100 g serving, calories and every amount equal the raw `_100g` values |
| NormaliserProperties.AmountsAreLinearInGrams | SmartFood/SmartFood/ContentView.swift:89-95 | scaling the serving by k scales calories and every amount by k |
| NormaliserProperties.NutrientInfoIsLinearInGrams | SmartFood/SmartFood/ContentView.swift:89 | `getNutrientInfo`'s amount is linear in the serving grams |
| NormaliserProperties.PercentAndUnitIgnoreGrams | SmartFood/SmartFood/ContentView.swift:88-92 | percent of the daily value and unit are the same for every serving size |
| NormaliserProperties.ZeroGramsGiveZeroAmounts | SmartFood/SmartFood/ContentView.swift:86-95 | a 0 g serving gives 0 calories and 0 for every amount |
| NormaliserProperties.MissingKeysGiveZeroAndAbsent | SmartFood/SmartFood/ContentView.swift:89-95 | a missing `_100g` key gives amount 0 (calories 0 for energy); a missing `_value` key gives no percent |
| NormaliserProperties.UnitsAgreeWithEmptyExceptVitaminD | SmartFood/SmartFood/ContentView.swift:96-109 | units do not depend on the payload; they equal the units of `empty` for every nutrient but vitamin D, whose unit is the U+00C2 U+00B5 "g" string and differs from `empty`'s |
| NormaliserProperties.KeysNeverCollide | SmartFood/SmartFood/ContentView.swift:89-90 | no `_100g` key equals any `_value` key |
| NormaliserProperties.KeysAreInjective | SmartFood/SmartFood/ContentView.swift:89-90 | different stems give different `_100g` keys and different `_value` keys |
| NormaliserProperties.StemsAreDistinct | SmartFood/SmartFood/ContentView.swift:95-109 | the fourteen nutrient stems and `energy-kcal` are pairwise distinct |
| NormaliserProperties.NutrientReadsOnlyItsOwnKeys | SmartFood/SmartFood/ContentView.swift:88-92 | writing any key other than a nutrient's `_100g` and `_value` keys leaves that nutrient unchanged |
| NormaliserProperties.SameKeysSameNutrientInfo | SmartFood/SmartFood/ContentView.swift:88-92 | two `nutriments` objects that agree on a stem's two keys give the same nutrient info for it |
| NormaliserProperties.CaloriesReadOnlyTheEnergyKey | SmartFood/SmartFood/ContentView.swift:95 | writing any key other than `energy-kcal_100g` leaves calories unchanged |
| NormaliserProperties.AmountReadsOnlyItsAmountKey | SmartFood/SmartFood/ContentView.swift:89 | writing any key other than a nutrient's `_100g` key leaves its amount unchanged |
| NormaliserProperties.SameAmountKeySameAmount | SmartFood/SmartFood/ContentView.swift:89 | two `nutriments` objects that agree on a stem's `_100g` key give the same amount for it |
| NormaliserProperties.PercentKeysNeverAffectAmounts | SmartFood/SmartFood/ContentView.swift:89-90 | writing any `_value` key leaves calories and every amount unchanged |
| NormaliserProperties.AmountKeysNeverAffectPercents | SmartFood/SmartFood/ContentView.swift:89-90 | writing any `_100g` key leaves every percent of the daily value unchanged |
| NormaliserProperties.OwnKeysAffectOnlyTheirNutrient | SmartFood/SmartFood/ContentView.swift:94-110 | writing a nutrient's `_100g` or `_value` key leaves calories and every other nutrient unchanged |
| NormaliserProperties.ServingQuantityIsTheServing | SmartFood/SmartFood/ContentView.swift:86-95 | setting a numeric `serving_quantity` q in a recognised payload gives a q-gram serving, with the facts normalised at q (with `AmountsAreLinearInGrams`: doubling it doubles every amount) |
| NormaliserProperties.ProductPayloadIsRecognised | SmartFood/SmartFood/ContentView.swift:80-86 | a product with a name and nutriments but no `serving_size` is recognised, labelled "N/A", and served at its numeric quantity or at 100 g |
| NormaliserProperties.HalfServingOfFatExample | SmartFood/SmartFood/ContentView.swift:85-96 | for fat_100g 10, fat_value 12 and quantity 50: fat is 5 g with 12 percent, the label is "N/A", and iron is 0 mg with no percent |
| NormaliserProperties.StringServingQuantityFallsBack | SmartFood/SmartFood/ContentView.swift:86 | a `serving_quantity` given as a string is not numeric, so 100 g is used and amounts equal the raw values |
| NormaliserProperties.ZeroServingQuantityIsKept | SmartFood/SmartFood/ContentView.swift:86-95 | a numeric `serving_quantity` of 0 is kept as 0 g, so calories and every amount are 0 |
| NormaliserProperties.MissingNutrimentsGivesNothing | SmartFood/SmartFood/ContentView.swift:80-83 | a product without `nutriments`, or with a non-string name, produces no record |

## Left out

- Networking: building the request URL and the `URLSession` task (ContentView.swift lines 64-78 and 126) are I/O. Their error branches only log.
- Byte-level JSON parsing: `JSONSerialization` is a foreign library. The normaliser receives an already-decoded `Json` value, and its `catch` branch, which only logs, is not modelled.
- Number casts: Foundation bridges a JSON boolean to `Double` as 1 or 0. It also refuses integers that a `Double` cannot hold exactly. The model treats booleans as non-numeric and takes every JSON number as an exact real.
- Floating point: amounts are `real`, so `Double` rounding in `* (grams / 100.0)` is not modelled.
- The main-queue hop (`DispatchQueue.main.async`) is concurrency plumbing. `ScannedFoodAfterFetch` gives the resulting value of `scannedFood`, not the timing of the update.
- Persistence: the Core Data context, `viewContext.save()`, its failure branch, clearing `scannedFood` after a save, `deleteFoods` and the name-sorted fetch request are library calls. `StoredRow` models only which values `saveFood` copies into the row.
- Codable: `JSONEncoder`/`JSONDecoder` are synthesized library code, passed in as the functions `encode`/`decode`. Their round trip is a precondition of `StoredRowReadsBack`, not a proved fact.
- `UUID()` is nondeterministic and is a parameter.
- The SwiftUI views, the `%.1f` display formatting and the camera-based barcode scanner are UI and camera code.
