/**
 * The food table with nutrition per 100 g, scaling a food to an amount, and the two
 * order-preserving lookups over the table.
 */
module FoodDatabase {
  import opened Wrappers
  import opened JsMath
  import opened Text
  import opened Sequences

  /** A food's nutrition per 100 g; `fiber` is optional and no food in the table sets it. */
  datatype NutritionFacts = NutritionFacts(calories: real, protein: real, carbs: real, fat: real, fiber: Option<real>)

  datatype Serving = Serving(amount: real, unit: string)

  datatype Food = Food(id: string, name: string, category: string, nutrition: NutritionFacts, commonServing: Serving)

  function Facts(calories: real, protein: real, carbs: real, fat: real): NutritionFacts {
    NutritionFacts(calories, protein, carbs, fat, None)
  }

  /** The fourteen foods, in table order. */
  const Foods: seq<Food> := [ChickenBreast, Salmon, Eggs, GreekYogurt, Tofu, BrownRice, Quinoa, SweetPotato, Oats, Avocado, Almonds, OliveOil, Broccoli, Spinach]

  const ChickenBreast: Food := Food("chicken-breast", "Chicken Breast (skinless)", "Protein", Facts(165.0, 31.0, 0.0, 3.6), Serving(100.0, "g"))
  const Salmon: Food := Food("salmon", "Salmon (Atlantic)", "Protein", Facts(208.0, 25.0, 0.0, 12.0), Serving(150.0, "g"))
  const Eggs: Food := Food("eggs", "Eggs (whole)", "Protein", Facts(155.0, 13.0, 1.1, 11.0), Serving(50.0, "g (1 egg)"))
  const GreekYogurt: Food := Food("greek-yogurt", "Greek Yogurt (plain)", "Protein", Facts(59.0, 10.0, 3.6, 0.4), Serving(170.0, "g (1 cup)"))
  const Tofu: Food := Food("tofu", "Tofu (firm)", "Protein", Facts(144.0, 17.0, 3.0, 9.0), Serving(100.0, "g"))
  const BrownRice: Food := Food("brown-rice", "Brown Rice (cooked)", "Carbs", Facts(112.0, 2.6, 23.0, 0.9), Serving(150.0, "g (1 cup)"))
  const Quinoa: Food := Food("quinoa", "Quinoa (cooked)", "Carbs", Facts(120.0, 4.4, 22.0, 1.9), Serving(185.0, "g (1 cup)"))
  const SweetPotato: Food := Food("sweet-potato", "Sweet Potato (baked)", "Carbs", Facts(90.0, 2.0, 21.0, 0.1), Serving(200.0, "g (1 medium)"))
  const Oats: Food := Food("oats", "Oats (rolled, dry)", "Carbs", Facts(389.0, 17.0, 66.0, 7.0), Serving(40.0, "g (1/2 cup)"))
  const Avocado: Food := Food("avocado", "Avocado", "Fats", Facts(160.0, 2.0, 9.0, 15.0), Serving(150.0, "g (1 medium)"))
  const Almonds: Food := Food("almonds", "Almonds", "Fats", Facts(579.0, 21.0, 22.0, 50.0), Serving(28.0, "g (1 oz)"))
  const OliveOil: Food := Food("olive-oil", "Olive Oil", "Fats", Facts(884.0, 0.0, 0.0, 100.0), Serving(15.0, "ml (1 tbsp)"))
  const Broccoli: Food := Food("broccoli", "Broccoli", "Vegetables", Facts(34.0, 2.8, 7.0, 0.4), Serving(100.0, "g (1 cup)"))
  const Spinach: Food := Food("spinach", "Spinach", "Vegetables", Facts(23.0, 2.9, 3.6, 0.4), Serving(30.0, "g (1 cup)"))

  /** Every nutrition field is at least zero. */
  predicate NonNegativeFacts(n: NutritionFacts) {
    n.calories >= 0.0 && n.protein >= 0.0 && n.carbs >= 0.0 && n.fat >= 0.0
  }

  /** Calories are whole and the macros have at most one decimal. */
  predicate Exact(n: NutritionFacts) {
    n.calories == n.calories.Floor as real
    && n.protein * 10.0 == (n.protein * 10.0).Floor as real
    && n.carbs * 10.0 == (n.carbs * 10.0).Floor as real
    && n.fat * 10.0 == (n.fat * 10.0).Floor as real
  }

  /** What the rest of the planner relies on about the table. */
  predicate ValidTable(foods: seq<Food>) {
    && (forall i, j :: 0 <= i < j < |foods| ==> foods[i].id != foods[j].id)
    && (forall i :: 0 <= i < |foods| ==> foods[i].commonServing.amount > 0.0)
    && (forall i :: 0 <= i < |foods| ==> NonNegativeFacts(foods[i].nutrition))
    && (forall i :: 0 <= i < |foods| ==> foods[i].nutrition.fiber == None && Exact(foods[i].nutrition))
  }

  lemma TableIsValid()
    ensures ValidTable(Foods)
  {
    IdsDistinct();
    FieldsValid();
  }

  lemma IdsDistinct()
    ensures forall i, j :: 0 <= i < j < |Foods| ==> Foods[i].id != Foods[j].id
  {
    forall i, j | 0 <= i < j < |Foods|
      ensures Foods[i].id != Foods[j].id
    {
      var a, b := Foods[i].id, Foods[j].id;
      assert |a| != |b| || a[0] != b[0] || a[1] != b[1];
    }
  }

  lemma FieldsValid()
    ensures forall i :: 0 <= i < |Foods| ==> Foods[i].commonServing.amount > 0.0
    ensures forall i :: 0 <= i < |Foods| ==> NonNegativeFacts(Foods[i].nutrition)
    ensures forall i :: 0 <= i < |Foods| ==> Foods[i].nutrition.fiber == None && Exact(Foods[i].nutrition)
  {
    ServingsPositive();
    FactsNonNegative();
    FactsExact();
  }

  lemma ServingsPositive()
    ensures forall i :: 0 <= i < |Foods| ==> Foods[i].commonServing.amount > 0.0
  {
  }

  lemma FactsNonNegative()
    ensures forall i :: 0 <= i < |Foods| ==> NonNegativeFacts(Foods[i].nutrition)
  {
  }

  lemma FactsExact()
    ensures forall i :: 0 <= i < |Foods| ==> Foods[i].nutrition.fiber == None && Exact(Foods[i].nutrition)
  {
    EntriesExact();
  }

  lemma EntriesExact()
    ensures Exact(ChickenBreast.nutrition) && Exact(Salmon.nutrition) && Exact(Eggs.nutrition)
    ensures Exact(GreekYogurt.nutrition) && Exact(Tofu.nutrition) && Exact(BrownRice.nutrition)
    ensures Exact(Quinoa.nutrition) && Exact(SweetPotato.nutrition) && Exact(Oats.nutrition)
    ensures Exact(Avocado.nutrition) && Exact(Almonds.nutrition) && Exact(OliveOil.nutrition)
    ensures Exact(Broccoli.nutrition) && Exact(Spinach.nutrition)
  {
    ExactWhen(ChickenBreast.nutrition, 165, 310, 0, 36);
    ExactWhen(Salmon.nutrition, 208, 250, 0, 120);
    ExactWhen(Eggs.nutrition, 155, 130, 11, 110);
    ExactWhen(GreekYogurt.nutrition, 59, 100, 36, 4);
    ExactWhen(Tofu.nutrition, 144, 170, 30, 90);
    ExactWhen(BrownRice.nutrition, 112, 26, 230, 9);
    ExactWhen(Quinoa.nutrition, 120, 44, 220, 19);
    ExactWhen(SweetPotato.nutrition, 90, 20, 210, 1);
    ExactWhen(Oats.nutrition, 389, 170, 660, 70);
    ExactWhen(Avocado.nutrition, 160, 20, 90, 150);
    ExactWhen(Almonds.nutrition, 579, 210, 220, 500);
    ExactWhen(OliveOil.nutrition, 884, 0, 0, 1000);
    ExactWhen(Broccoli.nutrition, 34, 28, 70, 4);
    ExactWhen(Spinach.nutrition, 23, 29, 36, 4);
  }

  /** Whole calories and macros that are whole numbers of tenths are exact. */
  lemma ExactWhen(n: NutritionFacts, calories: int, protein: int, carbs: int, fat: int)
    requires n.calories == calories as real && n.protein * 10.0 == protein as real
    requires n.carbs * 10.0 == carbs as real && n.fat * 10.0 == fat as real
    ensures Exact(n)
  {
  }

  /**
   * `calculateNutrition`: scales the per-100 g values by `amount / 100`; calories are
   * rounded to a whole number and the macros to one decimal. Fiber is not carried over.
   */
  function CalculateNutrition(food: Food, amount: real): (r: NutritionFacts)
    ensures r.fiber == None
  {
    Facts(
      Round(Scaled(food.nutrition.calories, amount)) as real,
      Round1(Scaled(food.nutrition.protein, amount)),
      Round1(Scaled(food.nutrition.carbs, amount)),
      Round1(Scaled(food.nutrition.fat, amount)))
  }

  /** A per-100 g value scaled to `amount` grams, before any rounding. */
  function Scaled(per100: real, amount: real): real {
    per100 * (amount / 100.0)
  }

  /**
   * Each field of `CalculateNutrition` is the exactly scaled value rounded: calories to a
   * whole number (at most half a kcal off), the macros to one decimal (at most 0.05 g off).
   */
  lemma CalculateNutritionAccuracy(food: Food, amount: real)
    ensures var r, n := CalculateNutrition(food, amount), food.nutrition;
      && Exact(r)
      && -0.5 < r.calories - Scaled(n.calories, amount) <= 0.5
      && -0.05 < r.protein - Scaled(n.protein, amount) <= 0.05
      && -0.05 < r.carbs - Scaled(n.carbs, amount) <= 0.05
      && -0.05 < r.fat - Scaled(n.fat, amount) <= 0.05
  {
  }

  /** Values that are already whole (calories) or one-decimal (macros) survive rounding unchanged. */
  lemma ScaleOfExact(n: NutritionFacts, food: Food)
    requires food.nutrition == n && n.fiber == None && Exact(n)
    ensures CalculateNutrition(food, 100.0) == n
  {
    var ratio := 100.0 / 100.0;
    assert ratio == 1.0;
    RoundOfInteger(n.calories.Floor);
    Round1OfTenths((n.protein * 10.0).Floor);
    assert (n.protein * 10.0).Floor as real / 10.0 == n.protein;
    Round1OfTenths((n.carbs * 10.0).Floor);
    assert (n.carbs * 10.0).Floor as real / 10.0 == n.carbs;
    Round1OfTenths((n.fat * 10.0).Floor);
    assert (n.fat * 10.0).Floor as real / 10.0 == n.fat;
  }

  /** At 100 g every food in the table gives back exactly its stored values. */
  lemma CalculateAtHundred(i: nat)
    requires i < |Foods|
    ensures CalculateNutrition(Foods[i], 100.0) == Foods[i].nutrition
  {
    TableIsValid();
    ScaleOfExact(Foods[i].nutrition, Foods[i]);
  }

  /** Amount 0 gives the zero profile. */
  lemma CalculateAtZero(food: Food)
    ensures CalculateNutrition(food, 0.0) == Facts(0.0, 0.0, 0.0, 0.0)
  {
    RoundOfInteger(0);
    Round1OfTenths(0);
  }

  /** For non-negative nutrition, a larger amount never gives a smaller value in any field. */
  lemma CalculateMonotone(food: Food, a: real, b: real)
    requires NonNegativeFacts(food.nutrition) && 0.0 <= a <= b
    ensures var x, y := CalculateNutrition(food, a), CalculateNutrition(food, b);
      x.calories <= y.calories && x.protein <= y.protein && x.carbs <= y.carbs && x.fat <= y.fat
  {
    CaloriesMonotone(food, a, b);
    MacrosMonotone(food, a, b);
  }

  lemma CaloriesMonotone(food: Food, a: real, b: real)
    requires NonNegativeFacts(food.nutrition) && 0.0 <= a <= b
    ensures CalculateNutrition(food, a).calories <= CalculateNutrition(food, b).calories
  {
    ScaledMonotone(food.nutrition.calories, a, b);
    RoundMonotone(Scaled(food.nutrition.calories, a), Scaled(food.nutrition.calories, b));
  }

  lemma MacrosMonotone(food: Food, a: real, b: real)
    requires NonNegativeFacts(food.nutrition) && 0.0 <= a <= b
    ensures var x, y := CalculateNutrition(food, a), CalculateNutrition(food, b);
      x.protein <= y.protein && x.carbs <= y.carbs && x.fat <= y.fat
  {
    var n := food.nutrition;
    ScaledMonotone(n.protein, a, b);
    Round1Monotone(Scaled(n.protein, a), Scaled(n.protein, b));
    ScaledMonotone(n.carbs, a, b);
    Round1Monotone(Scaled(n.carbs, a), Scaled(n.carbs, b));
    ScaledMonotone(n.fat, a, b);
    Round1Monotone(Scaled(n.fat, a), Scaled(n.fat, b));
  }

  lemma ScaledMonotone(v: real, a: real, b: real)
    requires v >= 0.0 && a <= b
    ensures Scaled(v, a) <= Scaled(v, b)
  {
    assert Scaled(v, b) - Scaled(v, a) == v * ((b - a) / 100.0);
  }

  /** The `searchFoods` test: lower-cased name or category includes the lower-cased query. */
  predicate Matches(food: Food, query: string) {
    var q := ToLower(query);
    Includes(ToLower(food.name), q) || Includes(ToLower(food.category), q)
  }

  /**
   * `searchFoods`: a blank query (empty after `trim`) gives the whole table; any other
   * query, untrimmed, keeps the foods that match it, in table order.
   */
  function SearchFoods(query: string): (r: seq<Food>)
    ensures IsBlank(query) ==> r == Foods
    ensures IsSubsequence(r, Foods)
    ensures !IsBlank(query) ==>
      && (forall i :: 0 <= i < |r| ==> Matches(r[i], query))
      && (forall i :: 0 <= i < |Foods| && Matches(Foods[i], query) ==> Foods[i] in r)
  {
    if IsBlank(query) then
      FilterAll(Foods, _ => true);
      FilterIsSubsequence(Foods, _ => true);
      Foods
    else
      var p := food => Matches(food, query);
      FilterIsSubsequence(Foods, p);
      FilterMembers(Foods, p);
      Filter(Foods, p)
  }

  /** `getFoodsByCategory`: the foods whose category is exactly `category`, in table order. */
  function FoodsByCategory(category: string): (r: seq<Food>)
    ensures IsSubsequence(r, Foods)
    ensures forall i :: 0 <= i < |r| ==> r[i].category == category
    ensures forall i :: 0 <= i < |Foods| && Foods[i].category == category ==> Foods[i] in r
  {
    var p := (food: Food) => food.category == category;
    FilterIsSubsequence(Foods, p);
    FilterMembers(Foods, p);
    Filter(Foods, p)
  }
}
