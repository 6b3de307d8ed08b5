/**
 * The record types of the application: a scanned `Food`, its
 * `NutritionFacts` (calories plus fourteen nutrients) and the
 * `NutrientInfo` of each nutrient, together with the canonical `empty`
 * facts used when stored nutrition data cannot be read back.
 */
module FoodData {
  import opened Wrappers

  /** An opaque 128-bit identifier (Foundation's `UUID`). */
  type Uuid = x: nat | x < 0x1_0000_0000_0000_0000_0000_0000_0000_0000

  /**
   * One nutrient: an amount and a unit, both mandatory, and a percent of the
   * daily value that may be absent (absent is not the same as zero).
   */
  datatype NutrientInfo = NutrientInfo(amount: real, unit: string, percentDailyValue: Option<real>)

  datatype NutritionFacts = NutritionFacts(
    calories: real,
    totalFat: NutrientInfo,
    saturatedFat: NutrientInfo,
    transFat: NutrientInfo,
    cholesterol: NutrientInfo,
    sodium: NutrientInfo,
    totalCarbohydrate: NutrientInfo,
    dietaryFiber: NutrientInfo,
    totalSugars: NutrientInfo,
    addedSugars: NutrientInfo,
    protein: NutrientInfo,
    vitaminD: NutrientInfo,
    calcium: NutrientInfo,
    iron: NutrientInfo,
    potassium: NutrientInfo)

  datatype Food = Food(
    id: Uuid,
    barcode: string,
    name: string,
    servingSize: string,
    servingSizeGrams: real,
    nutritionFacts: NutritionFacts)

  /** The names of the fourteen `NutrientInfo` fields of `NutritionFacts`. */
  datatype Nutrient =
    | TotalFat | SaturatedFat | TransFat | Cholesterol | Sodium
    | TotalCarbohydrate | DietaryFiber | TotalSugars | AddedSugars | Protein
    | VitaminD | Calcium | Iron | Potassium

  /** The nutrients in the order `NutritionFacts` declares them. */
  const AllNutrients: seq<Nutrient> := [
    TotalFat, SaturatedFat, TransFat, Cholesterol, Sodium,
    TotalCarbohydrate, DietaryFiber, TotalSugars, AddedSugars, Protein,
    VitaminD, Calcium, Iron, Potassium]

  /** The nutrients `empty` measures in grams, in milligrams. */
  const GramNutrients: set<Nutrient> := {
    TotalFat, SaturatedFat, TransFat, TotalCarbohydrate, DietaryFiber,
    TotalSugars, AddedSugars, Protein}
  const MilligramNutrients: set<Nutrient> := {Cholesterol, Sodium, Calcium, Iron, Potassium}

  /** The micro sign followed by "g". */
  const Micrograms: string := "\U{00B5}g"

  /** Field access by name: `facts.<n>`. */
  function Field(facts: NutritionFacts, n: Nutrient): NutrientInfo {
    match n
    case TotalFat => facts.totalFat
    case SaturatedFat => facts.saturatedFat
    case TransFat => facts.transFat
    case Cholesterol => facts.cholesterol
    case Sodium => facts.sodium
    case TotalCarbohydrate => facts.totalCarbohydrate
    case DietaryFiber => facts.dietaryFiber
    case TotalSugars => facts.totalSugars
    case AddedSugars => facts.addedSugars
    case Protein => facts.protein
    case VitaminD => facts.vitaminD
    case Calcium => facts.calcium
    case Iron => facts.iron
    case Potassium => facts.potassium
  }

  /** The fourteen nutrient fields of `facts`, in declaration order. */
  function Nutrients(facts: NutritionFacts): (s: seq<NutrientInfo>)
    ensures |s| == |AllNutrients| == 14
    ensures forall i :: 0 <= i < 14 ==> s[i] == Field(facts, AllNutrients[i])
  {
    [facts.totalFat, facts.saturatedFat, facts.transFat, facts.cholesterol,
     facts.sodium, facts.totalCarbohydrate, facts.dietaryFiber, facts.totalSugars,
     facts.addedSugars, facts.protein, facts.vitaminD, facts.calcium, facts.iron,
     facts.potassium]
  }

  /** The facts made of `calories` and fourteen nutrients in declaration order. */
  function FromNutrients(calories: real, s: seq<NutrientInfo>): (facts: NutritionFacts)
    requires |s| == 14
    ensures facts.calories == calories
    ensures Nutrients(facts) == s
  {
    NutritionFacts(calories, s[0], s[1], s[2], s[3], s[4], s[5], s[6], s[7],
                   s[8], s[9], s[10], s[11], s[12], s[13])
  }

  /**
   * `NutritionFacts` is exactly calories plus the fourteen nutrients: every
   * nutrient occurs once in `AllNutrients`, and the facts are rebuilt from
   * their calories and their nutrient list.
   */
  lemma FactsAreCaloriesAndNutrients(facts: NutritionFacts)
    ensures forall n :: n in AllNutrients
    ensures forall i, j :: 0 <= i < j < 14 ==> AllNutrients[i] != AllNutrients[j]
    ensures FromNutrients(facts.calories, Nutrients(facts)) == facts
  {
    forall n ensures n in AllNutrients {
      match n
      case TotalFat => assert AllNutrients[0] == n;
      case SaturatedFat => assert AllNutrients[1] == n;
      case TransFat => assert AllNutrients[2] == n;
      case Cholesterol => assert AllNutrients[3] == n;
      case Sodium => assert AllNutrients[4] == n;
      case TotalCarbohydrate => assert AllNutrients[5] == n;
      case DietaryFiber => assert AllNutrients[6] == n;
      case TotalSugars => assert AllNutrients[7] == n;
      case AddedSugars => assert AllNutrients[8] == n;
      case Protein => assert AllNutrients[9] == n;
      case VitaminD => assert AllNutrients[10] == n;
      case Calcium => assert AllNutrients[11] == n;
      case Iron => assert AllNutrients[12] == n;
      case Potassium => assert AllNutrients[13] == n;
    }
  }

  /** `NutritionFacts.empty`. */
  function Empty(): (e: NutritionFacts)
    ensures e.calories == 0.0
    ensures forall n :: Field(e, n).amount == 0.0
    ensures forall n :: Field(e, n).percentDailyValue == None
    ensures forall n :: n in GramNutrients ==> Field(e, n).unit == "g"
    ensures forall n :: n in MilligramNutrients ==> Field(e, n).unit == "mg"
    ensures Field(e, VitaminD).unit == Micrograms
  {
    NutritionFacts(
      calories := 0.0,
      totalFat := NutrientInfo(0.0, "g", None),
      saturatedFat := NutrientInfo(0.0, "g", None),
      transFat := NutrientInfo(0.0, "g", None),
      cholesterol := NutrientInfo(0.0, "mg", None),
      sodium := NutrientInfo(0.0, "mg", None),
      totalCarbohydrate := NutrientInfo(0.0, "g", None),
      dietaryFiber := NutrientInfo(0.0, "g", None),
      totalSugars := NutrientInfo(0.0, "g", None),
      addedSugars := NutrientInfo(0.0, "g", None),
      protein := NutrientInfo(0.0, "g", None),
      vitaminD := NutrientInfo(0.0, Micrograms, None),
      calcium := NutrientInfo(0.0, "mg", None),
      iron := NutrientInfo(0.0, "mg", None),
      potassium := NutrientInfo(0.0, "mg", None))
  }

  /** The three unit classes of `empty` cover every nutrient exactly once. */
  lemma EmptyUnitClassesPartition(n: Nutrient)
    ensures (n in GramNutrients) != (n in MilligramNutrients) || n == VitaminD
    ensures n == VitaminD ==> n !in GramNutrients && n !in MilligramNutrients
    ensures Field(Empty(), n).unit in {"g", "mg", Micrograms}
    ensures Field(Empty(), n).unit == "g" <==> n in GramNutrients
    ensures Field(Empty(), n).unit == "mg" <==> n in MilligramNutrients
    ensures Field(Empty(), n).unit == Micrograms <==> n == VitaminD
  {
  }

  /** An absent percent of the daily value is a different value from a zero one. */
  lemma AbsentPercentIsNotZero(amount: real, unit: string)
    ensures NutrientInfo(amount, unit, None) != NutrientInfo(amount, unit, Some(0.0))
  {
  }
}
