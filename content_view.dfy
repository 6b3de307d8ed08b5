/**
 * The pure parts of the application's main view: the normaliser inside
 * `fetchNutritionInfo`, which turns a decoded product payload and a scanned
 * barcode into a `Food` or into nothing, and `foodEntityToFood`, which
 * rebuilds a `Food` from a stored row.
 */
module ContentView {
  import opened Wrappers
  import opened JsonValue
  import opened FoodData

  /** Serving label used when the product has no `serving_size` string. */
  const DefaultServingSize: string := "N/A"

  /** Serving mass used when the product has no numeric `serving_quantity`. */
  const DefaultServingGrams: real := 100.0

  /** Key stem of the energy value, read into `calories`. */
  const EnergyStem: string := "energy-kcal"

  /**
   * The unit the normaliser writes for vitamin D: the two characters U+00C2
   * U+00B5 (the UTF-8 bytes of the micro sign read one byte per character)
   * followed by "g". It differs from the `Micrograms` of `empty`.
   */
  const NormalisedMicrograms: string := "\U{00C2}\U{00B5}g"

  /** The API key stem the normaliser reads for each nutrient field. */
  function StemOf(n: Nutrient): string {
    match n
    case TotalFat => "fat"
    case SaturatedFat => "saturated-fat"
    case TransFat => "trans-fat"
    case Cholesterol => "cholesterol"
    case Sodium => "sodium"
    case TotalCarbohydrate => "carbohydrates"
    case DietaryFiber => "fiber"
    case TotalSugars => "sugars"
    case AddedSugars => "added-sugars"
    case Protein => "proteins"
    case VitaminD => "vitamin-d"
    case Calcium => "calcium"
    case Iron => "iron"
    case Potassium => "potassium"
  }

  /** The fixed unit the normaliser tags each nutrient field with. */
  function UnitOf(n: Nutrient): string {
    match n
    case TotalFat => "g"
    case SaturatedFat => "g"
    case TransFat => "g"
    case Cholesterol => "mg"
    case Sodium => "mg"
    case TotalCarbohydrate => "g"
    case DietaryFiber => "g"
    case TotalSugars => "g"
    case AddedSugars => "g"
    case Protein => "g"
    case VitaminD => NormalisedMicrograms
    case Calcium => "mg"
    case Iron => "mg"
    case Potassium => "mg"
  }

  /** The key holding the amount per 100 g. */
  function Key100g(stem: string): string {
    stem + "_100g"
  }

  /** The key holding the percent of the daily value. */
  function KeyValue(stem: string): string {
    stem + "_value"
  }

  /** `nutrients[key] as? Double ?? 0`. */
  function NumberOrZero(nutrients: map<string, Json>, key: string): real {
    AsDouble(Member(nutrients, key)).GetOr(0.0)
  }

  /** `getNutrientInfo(key, unit)`, with the enclosing `nutrients` and grams passed in. */
  function GetNutrientInfo(nutrients: map<string, Json>, grams: real, key: string, unit: string): (info: NutrientInfo)
    ensures info.unit == unit
    ensures Key100g(key) in nutrients && nutrients[Key100g(key)].JNum? ==>
              info.amount == nutrients[Key100g(key)].num * (grams / 100.0)
    ensures !(Key100g(key) in nutrients && nutrients[Key100g(key)].JNum?) ==> info.amount == 0.0
    ensures info.percentDailyValue.Some? <==> KeyValue(key) in nutrients && nutrients[KeyValue(key)].JNum?
    ensures info.percentDailyValue.Some? ==> info.percentDailyValue.value == nutrients[KeyValue(key)].num
  {
    var amount := NumberOrZero(nutrients, Key100g(key)) * (grams / 100.0);
    var percentDailyValue := AsDouble(Member(nutrients, KeyValue(key)));
    NutrientInfo(amount, unit, percentDailyValue)
  }

  /** The `NutritionFacts` the normaliser assembles from `nutriments` for a serving of `grams`. */
  function NormalisedFacts(nutrients: map<string, Json>, grams: real): (facts: NutritionFacts)
    ensures facts.calories == NumberOrZero(nutrients, Key100g(EnergyStem)) * (grams / 100.0)
    ensures forall n :: Field(facts, n) == GetNutrientInfo(nutrients, grams, StemOf(n), UnitOf(n))
  {
    NutritionFacts(
      calories := NumberOrZero(nutrients, Key100g(EnergyStem)) * (grams / 100.0),
      totalFat := GetNutrientInfo(nutrients, grams, "fat", "g"),
      saturatedFat := GetNutrientInfo(nutrients, grams, "saturated-fat", "g"),
      transFat := GetNutrientInfo(nutrients, grams, "trans-fat", "g"),
      cholesterol := GetNutrientInfo(nutrients, grams, "cholesterol", "mg"),
      sodium := GetNutrientInfo(nutrients, grams, "sodium", "mg"),
      totalCarbohydrate := GetNutrientInfo(nutrients, grams, "carbohydrates", "g"),
      dietaryFiber := GetNutrientInfo(nutrients, grams, "fiber", "g"),
      totalSugars := GetNutrientInfo(nutrients, grams, "sugars", "g"),
      addedSugars := GetNutrientInfo(nutrients, grams, "added-sugars", "g"),
      protein := GetNutrientInfo(nutrients, grams, "proteins", "g"),
      vitaminD := GetNutrientInfo(nutrients, grams, "vitamin-d", NormalisedMicrograms),
      calcium := GetNutrientInfo(nutrients, grams, "calcium", "mg"),
      iron := GetNutrientInfo(nutrients, grams, "iron", "mg"),
      potassium := GetNutrientInfo(nutrients, grams, "potassium", "mg"))
  }

  /**
   * The shape a payload must have for the normaliser to produce a record:
   * an object whose `product` is an object holding a string `product_name`
   * and an object `nutriments`.
   */
  ghost predicate Recognised(payload: Json) {
    && payload.JObj?
    && "product" in payload.fields
    && payload.fields["product"].JObj?
    && "product_name" in payload.fields["product"].fields
    && payload.fields["product"].fields["product_name"].JStr?
    && "nutriments" in payload.fields["product"].fields
    && payload.fields["product"].fields["nutriments"].JObj?
  }

  /**
   * The normaliser: the record built from a decoded payload, the scanned
   * barcode and a fresh identifier, or nothing when the payload lacks the
   * product object, its name or its nutriments.
   */
  function FoodFromPayload(payload: Json, barcode: string, id: Uuid): (food: Option<Food>)
    ensures food.Some? <==> Recognised(payload)
    ensures food.Some? ==>
      var product := payload.fields["product"].fields;
      && food.value.id == id
      && food.value.barcode == barcode
      && food.value.name == product["product_name"].str
      && (if "serving_size" in product && product["serving_size"].JStr?
          then food.value.servingSize == product["serving_size"].str
          else food.value.servingSize == DefaultServingSize)
      && (if "serving_quantity" in product && product["serving_quantity"].JNum?
          then food.value.servingSizeGrams == product["serving_quantity"].num
          else food.value.servingSizeGrams == DefaultServingGrams)
      && food.value.nutritionFacts
         == NormalisedFacts(product["nutriments"].fields, food.value.servingSizeGrams)
  {
    if !payload.JObj? then None
    else
      match AsDictionary(Member(payload.fields, "product"))
      case None => None
      case Some(product) =>
        match (AsString(Member(product, "product_name")), AsDictionary(Member(product, "nutriments")))
        case (Some(productName), Some(nutrients)) =>
          var servingSize := AsString(Member(product, "serving_size")).GetOr(DefaultServingSize);
          var servingSizeGrams := AsDouble(Member(product, "serving_quantity")).GetOr(DefaultServingGrams);
          Some(Food(id, barcode, productName, servingSize, servingSizeGrams,
                    NormalisedFacts(nutrients, servingSizeGrams)))
        case _ => None
  }

  /**
   * The view's `scannedFood` after a fetch completes with `payload`: replaced
   * by the normalised record when there is one, left as it was otherwise.
   */
  function ScannedFoodAfterFetch(scannedFood: Option<Food>, payload: Json, barcode: string, id: Uuid): (after: Option<Food>)
    ensures !Recognised(payload) ==> after == scannedFood
    ensures Recognised(payload) ==> after.Some? && after.value.barcode == barcode && after.value.id == id
    ensures Recognised(payload) ==> after == FoodFromPayload(payload, barcode, id)
  {
    var food := FoodFromPayload(payload, barcode, id);
    if food.Some? then food else scannedFood
  }

  /** The bytes of a serialised `NutritionFacts` blob. */
  type Bytes = seq<bv8>

  /**
   * A stored row: the persisted attributes of a `Food`, each optional as the
   * store hands it back except the scalar `servingSizeGrams`.
   */
  datatype FoodEntity = FoodEntity(
    id: Option<Uuid>,
    barcode: Option<string>,
    name: Option<string>,
    servingSize: Option<string>,
    servingSizeGrams: real,
    nutritionFacts: Option<Bytes>)

  /**
   * `foodEntityToFood`: the `Food` shown for a stored row. `decode` stands for
   * the JSON decoder (`None` when decoding throws) and `freshId` for the
   * `UUID()` generated when the row has no identifier.
   */
  function FoodEntityToFood(entity: FoodEntity, decode: Bytes -> Option<NutritionFacts>, freshId: Uuid): (food: Food)
    ensures entity.id.Some? ==> food.id == entity.id.value
    ensures entity.id.None? ==> food.id == freshId
    ensures entity.barcode.Some? ==> food.barcode == entity.barcode.value
    ensures entity.barcode.None? ==> food.barcode == ""
    ensures entity.name.Some? ==> food.name == entity.name.value
    ensures entity.name.None? ==> food.name == ""
    ensures entity.servingSize.Some? ==> food.servingSize == entity.servingSize.value
    ensures entity.servingSize.None? ==> food.servingSize == ""
    ensures food.servingSizeGrams == entity.servingSizeGrams
    ensures entity.nutritionFacts.None? ==> food.nutritionFacts == Empty()
    ensures entity.nutritionFacts.Some? && decode(entity.nutritionFacts.value).None? ==>
              food.nutritionFacts == Empty()
    ensures entity.nutritionFacts.Some? && decode(entity.nutritionFacts.value).Some? ==>
              food.nutritionFacts == decode(entity.nutritionFacts.value).value
  {
    var nutritionFacts :=
      if entity.nutritionFacts.Some? && decode(entity.nutritionFacts.value).Some?
      then decode(entity.nutritionFacts.value).value
      else Empty();
    Food(
      entity.id.GetOr(freshId),
      entity.barcode.GetOr(""),
      entity.name.GetOr(""),
      entity.servingSize.GetOr(""),
      entity.servingSizeGrams,
      nutritionFacts)
  }

  /**
   * The row `saveFood` fills in for `food`: every attribute copied, and the
   * facts serialised by `encode` (`None` when encoding throws).
   */
  function StoredRow(food: Food, encode: NutritionFacts -> Option<Bytes>): (entity: FoodEntity)
    ensures entity.id == Some(food.id) && entity.name == Some(food.name)
    ensures entity.barcode == Some(food.barcode) && entity.servingSize == Some(food.servingSize)
    ensures entity.servingSizeGrams == food.servingSizeGrams
    ensures entity.nutritionFacts == encode(food.nutritionFacts)
  {
    FoodEntity(
      Some(food.id),
      Some(food.barcode),
      Some(food.name),
      Some(food.servingSize),
      food.servingSizeGrams,
      encode(food.nutritionFacts))
  }

  /**
   * Reading back a stored `Food` gives the same `Food` when the decoder
   * inverts the encoder, and the same `Food` with `empty` facts when the
   * facts could not be encoded, whatever fresh identifier is at hand.
   */
  lemma StoredRowReadsBack(food: Food, encode: NutritionFacts -> Option<Bytes>,
                           decode: Bytes -> Option<NutritionFacts>, freshId: Uuid)
    ensures encode(food.nutritionFacts).Some? && decode(encode(food.nutritionFacts).value) == Some(food.nutritionFacts) ==>
              FoodEntityToFood(StoredRow(food, encode), decode, freshId) == food
    ensures encode(food.nutritionFacts).None? ==>
              FoodEntityToFood(StoredRow(food, encode), decode, freshId) == food.(nutritionFacts := Empty())
  {
  }
}
