/**
 * What the normaliser promises about every payload: how amounts scale with
 * the serving, what the percent of the daily value and the units depend on,
 * which keys each field is read from, and a few concrete payloads.
 */
module NormaliserProperties {
  import opened Wrappers
  import opened JsonValue
  import opened FoodData
  import opened ContentView

  /** For a serving of 100 g every amount is the raw `<stem>_100g` value (0 when absent). */
  lemma HundredGramsKeepsRawAmounts(nutrients: map<string, Json>)
    ensures NormalisedFacts(nutrients, 100.0).calories == NumberOrZero(nutrients, Key100g(EnergyStem))
    ensures forall n :: Field(NormalisedFacts(nutrients, 100.0), n).amount
                        == NumberOrZero(nutrients, Key100g(StemOf(n)))
  {
  }

  /** Scaling the serving by `k` scales calories and every amount by `k`. */
  lemma AmountsAreLinearInGrams(nutrients: map<string, Json>, grams: real, k: real)
    ensures NormalisedFacts(nutrients, k * grams).calories == k * NormalisedFacts(nutrients, grams).calories
    ensures forall n :: Field(NormalisedFacts(nutrients, k * grams), n).amount
                        == k * Field(NormalisedFacts(nutrients, grams), n).amount
  {
    ScalingIsLinear(NumberOrZero(nutrients, Key100g(EnergyStem)), grams, k);
    forall n ensures Field(NormalisedFacts(nutrients, k * grams), n).amount
                     == k * Field(NormalisedFacts(nutrients, grams), n).amount
    {
      assert Field(NormalisedFacts(nutrients, k * grams), n) == GetNutrientInfo(nutrients, k * grams, StemOf(n), UnitOf(n));
      assert Field(NormalisedFacts(nutrients, grams), n) == GetNutrientInfo(nutrients, grams, StemOf(n), UnitOf(n));
      NutrientInfoIsLinearInGrams(nutrients, grams, k, StemOf(n), UnitOf(n));
    }
  }

  /** `getNutrientInfo`'s amount is linear in the serving. */
  lemma NutrientInfoIsLinearInGrams(nutrients: map<string, Json>, grams: real, k: real, key: string, unit: string)
    ensures GetNutrientInfo(nutrients, k * grams, key, unit).amount == k * GetNutrientInfo(nutrients, grams, key, unit).amount
  {
    ScalingIsLinear(NumberOrZero(nutrients, Key100g(key)), grams, k);
  }

  /** The amount of `n` is its `_100g` value (0 when absent) times `grams / 100`. */
  lemma AmountIsScaled(nutrients: map<string, Json>, grams: real, n: Nutrient)
    ensures Field(NormalisedFacts(nutrients, grams), n).amount
            == NumberOrZero(nutrients, Key100g(StemOf(n))) * (grams / 100.0)
  {
    var info := GetNutrientInfo(nutrients, grams, StemOf(n), UnitOf(n));
    assert info.amount == NumberOrZero(nutrients, Key100g(StemOf(n))) * (grams / 100.0);
    assert Field(NormalisedFacts(nutrients, grams), n) == info;
  }

  lemma ScalingIsLinear(per100g: real, grams: real, k: real)
    ensures per100g * ((k * grams) / 100.0) == k * (per100g * (grams / 100.0))
  {
  }

  /** Percent of the daily value and unit do not depend on the serving. */
  lemma PercentAndUnitIgnoreGrams(nutrients: map<string, Json>, g1: real, g2: real)
    ensures forall n :: Field(NormalisedFacts(nutrients, g1), n).percentDailyValue
                        == Field(NormalisedFacts(nutrients, g2), n).percentDailyValue
    ensures forall n :: Field(NormalisedFacts(nutrients, g1), n).unit
                        == Field(NormalisedFacts(nutrients, g2), n).unit
  {
  }

  /** A serving of 0 g is not replaced by the default: it zeroes every amount. */
  lemma ZeroGramsGiveZeroAmounts(nutrients: map<string, Json>)
    ensures NormalisedFacts(nutrients, 0.0).calories == 0.0
    ensures forall n :: Field(NormalisedFacts(nutrients, 0.0), n).amount == 0.0
  {
  }

  /** A missing `_100g` key gives amount 0; a missing `_value` key gives no percent. */
  lemma MissingKeysGiveZeroAndAbsent(nutrients: map<string, Json>, grams: real, n: Nutrient)
    ensures Key100g(EnergyStem) !in nutrients ==> NormalisedFacts(nutrients, grams).calories == 0.0
    ensures Key100g(StemOf(n)) !in nutrients ==> Field(NormalisedFacts(nutrients, grams), n).amount == 0.0
    ensures KeyValue(StemOf(n)) !in nutrients ==> Field(NormalisedFacts(nutrients, grams), n).percentDailyValue == None
  {
  }

  /**
   * Units come from the fixed table, never from the payload; they agree with
   * those of `empty` for every nutrient except vitamin D.
   */
  lemma UnitsAgreeWithEmptyExceptVitaminD(nutrients: map<string, Json>, grams: real)
    ensures forall n :: n != VitaminD ==> Field(NormalisedFacts(nutrients, grams), n).unit == Field(Empty(), n).unit
    ensures Field(NormalisedFacts(nutrients, grams), VitaminD).unit == NormalisedMicrograms
    ensures Field(NormalisedFacts(nutrients, grams), VitaminD).unit != Field(Empty(), VitaminD).unit
  {
    forall n | n != VitaminD
      ensures Field(NormalisedFacts(nutrients, grams), n).unit == Field(Empty(), n).unit
    {
      EmptyUnitClassesPartition(n);
    }
    assert NormalisedMicrograms[0] != Micrograms[0];
  }

  /** No amount key is a percent key. */
  lemma KeysNeverCollide(s: string, t: string)
    ensures Key100g(s) != KeyValue(t)
  {
    var a, b := Key100g(s), KeyValue(t);
    assert a[|a| - 1] == 'g';
    assert b[|b| - 1] == 'e';
  }

  /** Distinct stems give distinct amount keys and distinct percent keys. */
  lemma KeysAreInjective(s: string, t: string)
    ensures Key100g(s) == Key100g(t) ==> s == t
    ensures KeyValue(s) == KeyValue(t) ==> s == t
  {
    if Key100g(s) == Key100g(t) {
      assert s == Key100g(s)[..|s|] && t == Key100g(t)[..|t|];
    }
    if KeyValue(s) == KeyValue(t) {
      assert s == KeyValue(s)[..|s|] && t == KeyValue(t)[..|t|];
    }
  }

  /** The fifteen stems the normaliser reads are pairwise distinct. */
  lemma StemsAreDistinct(n: Nutrient, m: Nutrient)
    ensures n != m ==> StemOf(n) != StemOf(m)
    ensures StemOf(n) != EnergyStem
  {
  }

  /**
   * Each nutrient depends on its own two keys only: writing any other key of
   * `nutriments` leaves it as it was.
   */
  lemma NutrientReadsOnlyItsOwnKeys(nutrients: map<string, Json>, grams: real, n: Nutrient, key: string, x: Json)
    requires key != Key100g(StemOf(n)) && key != KeyValue(StemOf(n))
    ensures Field(NormalisedFacts(nutrients[key := x], grams), n) == Field(NormalisedFacts(nutrients, grams), n)
  {
    var updated := nutrients[key := x];
    SameKeysSameNutrientInfo(updated, nutrients, grams, StemOf(n), UnitOf(n));
    assert Field(NormalisedFacts(updated, grams), n) == GetNutrientInfo(updated, grams, StemOf(n), UnitOf(n));
    assert Field(NormalisedFacts(nutrients, grams), n) == GetNutrientInfo(nutrients, grams, StemOf(n), UnitOf(n));
  }

  /** Two `nutriments` objects that agree on the two keys of `stem` give the same info for it. */
  lemma SameKeysSameNutrientInfo(m1: map<string, Json>, m2: map<string, Json>, grams: real, stem: string, unit: string)
    requires Member(m1, Key100g(stem)) == Member(m2, Key100g(stem))
    requires Member(m1, KeyValue(stem)) == Member(m2, KeyValue(stem))
    ensures GetNutrientInfo(m1, grams, stem, unit) == GetNutrientInfo(m2, grams, stem, unit)
  {
    assert NumberOrZero(m1, Key100g(stem)) == NumberOrZero(m2, Key100g(stem));
  }

  /** Calories depend on the `energy-kcal_100g` key only. */
  lemma CaloriesReadOnlyTheEnergyKey(nutrients: map<string, Json>, grams: real, key: string, x: Json)
    requires key != Key100g(EnergyStem)
    ensures NormalisedFacts(nutrients[key := x], grams).calories == NormalisedFacts(nutrients, grams).calories
  {
    assert Member(nutrients[key := x], Key100g(EnergyStem)) == Member(nutrients, Key100g(EnergyStem));
  }

  /** Changing any percent key leaves calories and every amount as they were. */
  lemma PercentKeysNeverAffectAmounts(nutrients: map<string, Json>, grams: real, stem: string, x: Json)
    ensures NormalisedFacts(nutrients[KeyValue(stem) := x], grams).calories
            == NormalisedFacts(nutrients, grams).calories
    ensures forall n :: Field(NormalisedFacts(nutrients[KeyValue(stem) := x], grams), n).amount
                        == Field(NormalisedFacts(nutrients, grams), n).amount
  {
    KeysNeverCollide(EnergyStem, stem);
    CaloriesReadOnlyTheEnergyKey(nutrients, grams, KeyValue(stem), x);
    forall n ensures Field(NormalisedFacts(nutrients[KeyValue(stem) := x], grams), n).amount
                     == Field(NormalisedFacts(nutrients, grams), n).amount
    {
      KeysNeverCollide(StemOf(n), stem);
      AmountReadsOnlyItsAmountKey(nutrients, grams, n, KeyValue(stem), x);
    }
  }

  /** The amount of `n` depends on its `_100g` key only. */
  lemma AmountReadsOnlyItsAmountKey(nutrients: map<string, Json>, grams: real, n: Nutrient, key: string, x: Json)
    requires key != Key100g(StemOf(n))
    ensures Field(NormalisedFacts(nutrients[key := x], grams), n).amount
            == Field(NormalisedFacts(nutrients, grams), n).amount
  {
    var updated := nutrients[key := x];
    SameAmountKeySameAmount(updated, nutrients, grams, StemOf(n), UnitOf(n));
    assert Field(NormalisedFacts(updated, grams), n) == GetNutrientInfo(updated, grams, StemOf(n), UnitOf(n));
    assert Field(NormalisedFacts(nutrients, grams), n) == GetNutrientInfo(nutrients, grams, StemOf(n), UnitOf(n));
  }

  /** Two `nutriments` objects that agree on the amount key of `stem` give the same amount for it. */
  lemma SameAmountKeySameAmount(m1: map<string, Json>, m2: map<string, Json>, grams: real, stem: string, unit: string)
    requires Member(m1, Key100g(stem)) == Member(m2, Key100g(stem))
    ensures GetNutrientInfo(m1, grams, stem, unit).amount == GetNutrientInfo(m2, grams, stem, unit).amount
  {
    assert NumberOrZero(m1, Key100g(stem)) == NumberOrZero(m2, Key100g(stem));
  }

  /** Changing any amount key leaves every percent of the daily value as it was. */
  lemma AmountKeysNeverAffectPercents(nutrients: map<string, Json>, grams: real, stem: string, x: Json)
    ensures forall n :: Field(NormalisedFacts(nutrients[Key100g(stem) := x], grams), n).percentDailyValue
                        == Field(NormalisedFacts(nutrients, grams), n).percentDailyValue
  {
    forall n ensures Field(NormalisedFacts(nutrients[Key100g(stem) := x], grams), n).percentDailyValue
                     == Field(NormalisedFacts(nutrients, grams), n).percentDailyValue
    {
      KeysNeverCollide(stem, StemOf(n));
      var updated := nutrients[Key100g(stem) := x];
      assert Member(updated, KeyValue(StemOf(n))) == Member(nutrients, KeyValue(StemOf(n)));
      assert Field(NormalisedFacts(updated, grams), n) == GetNutrientInfo(updated, grams, StemOf(n), UnitOf(n));
      assert Field(NormalisedFacts(nutrients, grams), n) == GetNutrientInfo(nutrients, grams, StemOf(n), UnitOf(n));
    }
  }

  /**
   * Writing the amount key or the percent key of `n` leaves calories and
   * every other nutrient as they were.
   */
  lemma OwnKeysAffectOnlyTheirNutrient(nutrients: map<string, Json>, grams: real, n: Nutrient, m: Nutrient, x: Json)
    requires m != n
    ensures NormalisedFacts(nutrients[Key100g(StemOf(n)) := x], grams).calories
            == NormalisedFacts(nutrients, grams).calories
    ensures NormalisedFacts(nutrients[KeyValue(StemOf(n)) := x], grams).calories
            == NormalisedFacts(nutrients, grams).calories
    ensures Field(NormalisedFacts(nutrients[Key100g(StemOf(n)) := x], grams), m)
            == Field(NormalisedFacts(nutrients, grams), m)
    ensures Field(NormalisedFacts(nutrients[KeyValue(StemOf(n)) := x], grams), m)
            == Field(NormalisedFacts(nutrients, grams), m)
  {
    StemsAreDistinct(n, m);
    KeysAreInjective(StemOf(n), EnergyStem);
    KeysNeverCollide(EnergyStem, StemOf(n));
    CaloriesReadOnlyTheEnergyKey(nutrients, grams, Key100g(StemOf(n)), x);
    CaloriesReadOnlyTheEnergyKey(nutrients, grams, KeyValue(StemOf(n)), x);
    KeysAreInjective(StemOf(n), StemOf(m));
    KeysNeverCollide(StemOf(n), StemOf(m));
    KeysNeverCollide(StemOf(m), StemOf(n));
    NutrientReadsOnlyItsOwnKeys(nutrients, grams, m, Key100g(StemOf(n)), x);
    NutrientReadsOnlyItsOwnKeys(nutrients, grams, m, KeyValue(StemOf(n)), x);
  }

  /** `payload` with its product's `serving_quantity` set to the number `q`. */
  function WithServingQuantity(payload: Json, q: real): (updated: Json)
    requires Recognised(payload)
    ensures Recognised(updated)
  {
    var product := payload.fields["product"].fields;
    JObj(payload.fields["product" := JObj(product["serving_quantity" := JNum(q)])])
  }

  /** Setting `serving_quantity` to the number `q` makes the serving `q` grams, with the facts scaled to it. */
  lemma ServingQuantityIsTheServing(payload: Json, barcode: string, id: Uuid, q: real, food: Food)
    requires Recognised(payload)
    requires FoodFromPayload(WithServingQuantity(payload, q), barcode, id) == Some(food)
    ensures food.servingSizeGrams == q
    ensures food.nutritionFacts == NormalisedFacts(payload.fields["product"].fields["nutriments"].fields, q)
  {
    var product := payload.fields["product"].fields;
    var updated := WithServingQuantity(payload, q).fields["product"].fields;
    assert updated == product["serving_quantity" := JNum(q)];
    assert "serving_quantity" != "nutriments";
  }

  /** A payload whose product has the name "X", the given nutriments and, optionally, a `serving_quantity`. */
  function ProductPayload(nutrients: map<string, Json>, quantity: Option<Json>): Json {
    var product := map["product_name" := JStr("X"), "nutriments" := JObj(nutrients)];
    JObj(map["product" := JObj(if quantity.Some? then product["serving_quantity" := quantity.value] else product)])
  }

  /** Such a payload is recognised; its label is "N/A" and its serving is the numeric quantity or 100 g. */
  lemma ProductPayloadIsRecognised(nutrients: map<string, Json>, quantity: Option<Json>, barcode: string, id: Uuid)
    ensures Recognised(ProductPayload(nutrients, quantity))
    ensures
      var food := FoodFromPayload(ProductPayload(nutrients, quantity), barcode, id);
      && food.Some?
      && food.value.name == "X"
      && food.value.servingSize == DefaultServingSize
      && food.value.servingSizeGrams == (if quantity.Some? && quantity.value.JNum? then quantity.value.num else 100.0)
      && food.value.nutritionFacts == NormalisedFacts(nutrients, food.value.servingSizeGrams)
  {
    var product := ProductPayload(nutrients, quantity).fields["product"].fields;
    assert "product_name" in product && product["product_name"] == JStr("X");
    assert "nutriments" in product && product["nutriments"] == JObj(nutrients);
    assert "serving_size" !in product;
    assert quantity.Some? ==> "serving_quantity" in product && product["serving_quantity"] == quantity.value;
    assert quantity.None? ==> "serving_quantity" !in product;
  }

  /** The `nutriments` of the half-serving example: fat only, 10 g per 100 g and 12 percent. */
  const HalfServingNutriments: map<string, Json> := map["fat_100g" := JNum(10.0), "fat_value" := JNum(12.0)]

  /**
   * `{"product": {"product_name": "X", "nutriments": {"fat_100g": 10,
   * "fat_value": 12}, "serving_quantity": 50}}`: fat is 5 g with 12 percent,
   * the label falls back to "N/A" and iron, absent, is 0 with no percent.
   */
  lemma HalfServingOfFatExample(barcode: string, id: Uuid)
    ensures
      var food := FoodFromPayload(ProductPayload(HalfServingNutriments, Some(JNum(50.0))), barcode, id);
      && food.Some?
      && food.value.servingSize == "N/A"
      && food.value.servingSizeGrams == 50.0
      && food.value.nutritionFacts.totalFat == NutrientInfo(5.0, "g", Some(12.0))
      && food.value.nutritionFacts.iron == NutrientInfo(0.0, "mg", None)
  {
    ProductPayloadIsRecognised(HalfServingNutriments, Some(JNum(50.0)), barcode, id);
    var facts := NormalisedFacts(HalfServingNutriments, 50.0);
    HalfServingNutrients();
    assert facts.totalFat == GetNutrientInfo(HalfServingNutriments, 50.0, "fat", "g");
    assert facts.iron == GetNutrientInfo(HalfServingNutriments, 50.0, "iron", "mg");
  }

  /** The fat and iron entries of the half-serving example. */
  lemma HalfServingNutrients()
    ensures GetNutrientInfo(HalfServingNutriments, 50.0, "fat", "g") == NutrientInfo(5.0, "g", Some(12.0))
    ensures GetNutrientInfo(HalfServingNutriments, 50.0, "iron", "mg") == NutrientInfo(0.0, "mg", None)
  {
    assert Key100g("fat") == "fat_100g" && KeyValue("fat") == "fat_value";
    assert |KeyValue("iron")| == 10;
    assert |Key100g("iron")| == 9 && Key100g("iron")[8] == 'g';
  }

  /** A `serving_quantity` given as a string is not numeric, so 100 g is used. */
  lemma StringServingQuantityFallsBack(barcode: string, id: Uuid)
    ensures
      var food := FoodFromPayload(ProductPayload(map["fat_100g" := JNum(10.0)], Some(JStr("50"))), barcode, id);
      && food.Some?
      && food.value.servingSizeGrams == 100.0
      && food.value.nutritionFacts.totalFat.amount == 10.0
  {
    var nutrients := map["fat_100g" := JNum(10.0)];
    ProductPayloadIsRecognised(nutrients, Some(JStr("50")), barcode, id);
    assert Key100g("fat") == "fat_100g";
    assert Field(NormalisedFacts(nutrients, 100.0), TotalFat) == GetNutrientInfo(nutrients, 100.0, "fat", "g");
  }

  /** A numeric `serving_quantity` of 0 is used as it is, so every amount is 0. */
  lemma ZeroServingQuantityIsKept(barcode: string, id: Uuid)
    ensures
      var food := FoodFromPayload(
        ProductPayload(map["fat_100g" := JNum(10.0), "energy-kcal_100g" := JNum(900.0)], Some(JNum(0.0))), barcode, id);
      && food.Some?
      && food.value.servingSizeGrams == 0.0
      && food.value.nutritionFacts.calories == 0.0
      && (forall n :: Field(food.value.nutritionFacts, n).amount == 0.0)
  {
    var nutrients := map["fat_100g" := JNum(10.0), "energy-kcal_100g" := JNum(900.0)];
    ProductPayloadIsRecognised(nutrients, Some(JNum(0.0)), barcode, id);
    ZeroGramsGiveZeroAmounts(nutrients);
  }

  /** Without `nutriments` (or with a non-string name) nothing is produced. */
  lemma MissingNutrimentsGivesNothing(name: Json, barcode: string, id: Uuid)
    ensures FoodFromPayload(JObj(map["product" := JObj(map["product_name" := JStr("X")])]), barcode, id) == None
    ensures !name.JStr? ==>
      FoodFromPayload(JObj(map["product" := JObj(map["product_name" := name, "nutriments" := JObj(map[])])]), barcode, id) == None
  {
    var noNutriments := JObj(map["product" := JObj(map["product_name" := JStr("X")])]);
    assert "nutriments" !in noNutriments.fields["product"].fields;
    assert !Recognised(noNutriments);
  }
}
