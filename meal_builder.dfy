/**
 * The meal builder's arithmetic: the running total of the items added so far, the capped
 * progress percentage shown in each bar, and `getProgressColor`, which is defined but never
 * called, so its colour never reaches the screen.
 */
module MealBuilder {
  import opened JsMath
  import opened Nutrition
  import opened FoodDatabase

  /** An item of the meal being built; `nutrition` is computed once, when the item is added. */
  datatype MealItem = MealItem(food: Food, amount: real, nutrition: NutritionFacts)

  /** The four fields of an item's cached nutrition (fiber is not summed). */
  function ItemMacros(item: MealItem): Macros {
    Macros(item.nutrition.calories, item.nutrition.protein, item.nutrition.carbs, item.nutrition.fat)
  }

  /** `totalNutrition`: the `reduce` over the items' cached nutrition. */
  function TotalNutrition(items: seq<MealItem>): Macros {
    Sum(items, ItemMacros)
  }

  /** No items give the zero record; adding an item adds exactly its cached nutrition to each field. */
  lemma TotalAppend(items: seq<MealItem>, item: MealItem)
    ensures TotalNutrition([]) == Zero
    ensures var before, after := TotalNutrition(items), TotalNutrition(items + [item]);
      && after.calories == before.calories + item.nutrition.calories
      && after.protein == before.protein + item.nutrition.protein
      && after.carbs == before.carbs + item.nutrition.carbs
      && after.fat == before.fat + item.nutrition.fat
  {
    SumAppend(items, [item], ItemMacros);
    assert [item][..0] == [];
  }

  /** The total does not depend on the order of the items. */
  lemma TotalOrderFree(items: seq<MealItem>, reordered: seq<MealItem>)
    requires multiset(items) == multiset(reordered)
    ensures TotalNutrition(items) == TotalNutrition(reordered)
  {
    SumPermutation(items, reordered, ItemMacros);
  }

  /**
   * The total reads only the cached nutrition: two lists whose items carry the same
   * nutrition, whatever their foods and amounts, have the same total.
   */
  lemma {:induction false} TotalReadsCachedNutrition(items: seq<MealItem>, others: seq<MealItem>)
    requires |items| == |others|
    requires forall i :: 0 <= i < |items| ==> items[i].nutrition == others[i].nutrition
    ensures TotalNutrition(items) == TotalNutrition(others)
  {
    if |items| > 0 {
      TotalReadsCachedNutrition(items[..|items| - 1], others[..|others| - 1]);
    }
  }

  /** A total of items with non-negative nutrition is non-negative. */
  lemma TotalNonNegative(items: seq<MealItem>)
    requires forall i :: 0 <= i < |items| ==> NonNegativeFacts(items[i].nutrition)
    ensures NonNegative(TotalNutrition(items))
  {
    SumNonNegative(items, ItemMacros);
  }

  /**
   * `getProgressPercentage`: 0 for a zero target, otherwise the share of the target
   * reached, in percent, capped at 100.
   */
  function ProgressPercentage(current: real, target: real): (r: real)
    ensures target == 0.0 ==> r == 0.0
    ensures target != 0.0 ==> r <= 100.0 && r <= current / target * 100.0
    ensures target != 0.0 ==> (r == 100.0 || r == current / target * 100.0)
  {
    if target == 0.0 then 0.0
    else
      var percentage := current / target * 100.0;
      if percentage <= 100.0 then percentage else 100.0
  }

  /** For a non-negative intake and a positive target the percentage lies in [0, 100]. */
  lemma ProgressPercentageBounds(current: real, target: real)
    requires current >= 0.0 && target > 0.0
    ensures 0.0 <= ProgressPercentage(current, target) <= 100.0
    ensures ProgressPercentage(current, target) == 100.0 <==> current >= target
  {
    PercentCompare(current, target, 100.0);
  }

  /** With a positive target, more intake never shows a smaller percentage. */
  lemma ProgressPercentageMonotone(current: real, more: real, target: real)
    requires current <= more && target > 0.0
    ensures ProgressPercentage(current, target) <= ProgressPercentage(more, target)
  {
    assert current / target <= more / target by {
      MulMonotone(current, more, 1.0 / target);
    }
  }

  /**
   * Comparing a percentage of a positive target with a threshold is comparing the intake
   * with that share of the target.
   */
  lemma PercentCompare(current: real, target: real, k: real)
    requires target > 0.0
    ensures current / target * 100.0 < k <==> current * 100.0 < k * target
    ensures current / target * 100.0 <= k <==> current * 100.0 <= k * target
  {
    var pct := current / target * 100.0;
    assert pct * target == current * 100.0;
    if pct < k {
      MulStrict(pct, k, target);
    } else {
      MulMonotone(k, pct, target);
    }
    if pct <= k {
      MulMonotone(pct, k, target);
    } else {
      MulStrict(k, pct, target);
    }
  }

  /** The colour classes `getProgressColor` returns: `bg-yellow-500`, `bg-health-500` and `bg-red-500`. */
  datatype Color = Yellow | Health | Red

  /**
   * `getProgressColor`, on the uncapped percentage. It has no zero-target guard: JavaScript
   * gives +Infinity for a positive intake (red), NaN for zero (every comparison false, red)
   * and -Infinity for a negative one (yellow).
   */
  function ProgressColor(current: real, target: real): (c: Color)
    ensures target == 0.0 ==> (c == Yellow <==> current < 0.0) && c != Health
  {
    if target == 0.0 then
      if current < 0.0 then Yellow else Red
    else
      var percentage := current / target * 100.0;
      if percentage < 80.0 then Yellow
      else if percentage <= 100.0 then Health
      else Red
  }

  /**
   * For a positive target: yellow below 80 % of the target, the health colour from 80 % to
   * 100 % inclusive, red above 100 %.
   */
  lemma ProgressColorBands(current: real, target: real)
    requires target > 0.0
    ensures ProgressColor(current, target) == Yellow <==> current * 100.0 < 80.0 * target
    ensures ProgressColor(current, target) == Health <==> 80.0 * target <= current * 100.0 <= 100.0 * target
    ensures ProgressColor(current, target) == Red <==> current * 100.0 > 100.0 * target
  {
    PercentCompare(current, target, 80.0);
    PercentCompare(current, target, 100.0);
  }

  /** With a zero target and no intake the percentage is 0 while `getProgressColor` returns red. */
  lemma ZeroTargetShowsRed()
    ensures ProgressPercentage(0.0, 0.0) == 0.0 && ProgressColor(0.0, 0.0) == Red
  {
  }
}
