/**
 * The plan view: the status of each macro (an icon colour and a bar colour), the grouping of the plan's meals by type,
 * and the line of text under each progress bar.
 */
module MealPlan {
  import opened JsMath
  import opened Sequences
  import opened Nutrition
  import opened Index
  import opened MealBuilder

  /** `'low' | 'good' | 'high'`. */
  datatype Status = Low | Good | High

  /**
   * `getProgressStatus`, on the uncapped percentage and with no zero-target guard: for a
   * zero target JavaScript gives +Infinity, NaN or -Infinity, so only a negative intake is low.
   */
  function ProgressStatus(current: real, target: real): (s: Status)
    ensures target == 0.0 ==> (s == Low <==> current < 0.0) && s != Good
  {
    if target == 0.0 then
      if current < 0.0 then Low else High
    else
      var percentage := current / target * 100.0;
      if percentage < 80.0 then Low
      else if percentage <= 110.0 then Good
      else High
  }

  /**
   * For a positive target: low below 80 % of the target, good from 80 % to 110 % inclusive,
   * high above 110 %.
   */
  lemma ProgressStatusBands(current: real, target: real)
    requires target > 0.0
    ensures ProgressStatus(current, target) == Low <==> current * 100.0 < 80.0 * target
    ensures ProgressStatus(current, target) == Good <==> 80.0 * target <= current * 100.0 <= 110.0 * target
    ensures ProgressStatus(current, target) == High <==> current * 100.0 > 110.0 * target
  {
    PercentCompare(current, target, 80.0);
    PercentCompare(current, target, 110.0);
  }

  function OfType(mealType: MealType): Meal -> bool {
    (meal: Meal) => meal.mealType == mealType
  }

  /** `getMealsByType`: the plan's meals of one type, in plan order. */
  function MealsByType(meals: seq<Meal>, mealType: MealType): seq<Meal> {
    Filter(meals, OfType(mealType))
  }

  /** The meals of a type are exactly the plan's meals of that type, in plan order. */
  lemma MealsByTypeSpec(meals: seq<Meal>, mealType: MealType)
    ensures var r := MealsByType(meals, mealType);
      && IsSubsequence(r, meals)
      && (forall i :: 0 <= i < |r| ==> r[i].mealType == mealType)
      && (forall i :: 0 <= i < |meals| && meals[i].mealType == mealType ==> meals[i] in r)
  {
    FilterIsSubsequence(meals, OfType(mealType));
    FilterMembers(meals, OfType(mealType));
  }

  /** The three sections together list every meal of the plan exactly once. */
  lemma {:induction false} MealsByTypePartition(meals: seq<Meal>)
    ensures multiset(MealsByType(meals, Breakfast)) + multiset(MealsByType(meals, Lunch))
      + multiset(MealsByType(meals, Dinner)) == multiset(meals)
  {
    if |meals| > 0 {
      var init, last := meals[..|meals| - 1], meals[|meals| - 1];
      MealsByTypePartition(init);
      assert multiset(meals) == multiset(init) + multiset{last} by {
        assert meals == init + [last];
      }
      MealsByTypeSnoc(meals, Breakfast);
      MealsByTypeSnoc(meals, Lunch);
      MealsByTypeSnoc(meals, Dinner);
    }
  }

  /** One more meal joins the section of its own type and no other. */
  lemma MealsByTypeSnoc(meals: seq<Meal>, mealType: MealType)
    requires |meals| > 0
    ensures var init, last := meals[..|meals| - 1], meals[|meals| - 1];
      multiset(MealsByType(meals, mealType))
        == multiset(MealsByType(init, mealType)) + if last.mealType == mealType then multiset{last} else multiset{}
  {
    FilterSnocMultiset(meals, OfType(mealType));
  }

  /** The pieces of the line under a bar; each is shown when its condition holds. */
  datatype Fragment =
    | BelowTarget(points: int)  // "<points>% below target"
    | PerfectRange              // "Perfect range!"
    | OverTarget(points: int)   // "<points>% over target"

  /** The three conditional pieces of the line, for a given percentage. */
  function ProgressMessage(percentage: real): seq<Fragment> {
    (if percentage < 80.0 then [BelowTarget(Round(80.0 - percentage))] else [])
      + (if percentage >= 80.0 && percentage <= 110.0 then [PerfectRange] else [])
      + (if percentage > 110.0 then [OverTarget(Round(percentage - 100.0))] else [])
  }

  /** Exactly one piece shows, whatever the percentage; below 80 % it counts the points missing to 80. */
  lemma ProgressMessageSingle(percentage: real)
    ensures |ProgressMessage(percentage)| == 1
    ensures percentage < 80.0 ==> ProgressMessage(percentage) == [BelowTarget(Round(80.0 - percentage))]
    ensures percentage < 80.0 ==> ProgressMessage(percentage)[0].points >= 0
    ensures 80.0 <= percentage <= 110.0 <==> ProgressMessage(percentage) == [PerfectRange]
    ensures percentage > 110.0 <==> ProgressMessage(percentage)[0].OverTarget?
  {
    var m := ProgressMessage(percentage);
    if percentage < 80.0 {
      assert m[0] != PerfectRange;
    } else if percentage > 110.0 {
      assert m[0] != PerfectRange;
    }
  }

  /** The line as shown: it is computed from the capped percentage of the bar. */
  function ShownMessage(current: real, target: real): seq<Fragment> {
    ProgressMessage(ProgressPercentage(current, target))
  }

  /** Because the percentage is capped at 100, the "over target" piece is never shown. */
  lemma ShownMessageNeverOver(current: real, target: real)
    ensures |ShownMessage(current, target)| == 1 && !ShownMessage(current, target)[0].OverTarget?
  {
    ProgressMessageSingle(ProgressPercentage(current, target));
  }

  /**
   * Above 110 % of a positive target the status says high while the line says
   * "Perfect range!": 150 g of a 100 g target is one such case.
   */
  lemma HighButPerfect(current: real, target: real)
    requires target > 0.0 && current * 100.0 > 110.0 * target
    ensures ProgressStatus(current, target) == High
    ensures ShownMessage(current, target) == [PerfectRange]
  {
    ProgressStatusBands(current, target);
    PercentCompare(current, target, 100.0);
    assert ProgressPercentage(current, target) == 100.0;
  }

  lemma HighButPerfectExample()
    ensures ProgressStatus(150.0, 100.0) == High && ShownMessage(150.0, 100.0) == [PerfectRange]
  {
    HighButPerfect(150.0, 100.0);
  }

  /** The line computed from the uncapped percentage, with the bar's zero-target guard. */
  function IntendedMessage(current: real, target: real): seq<Fragment> {
    ProgressMessage(if target == 0.0 then 0.0 else current / target * 100.0)
  }

  /** From the uncapped percentage, the line agrees with the status for every positive target. */
  lemma IntendedMessageMatchesStatus(current: real, target: real)
    requires target > 0.0
    ensures ProgressStatus(current, target) == Low <==> IntendedMessage(current, target)[0].BelowTarget?
    ensures ProgressStatus(current, target) == Good <==> IntendedMessage(current, target) == [PerfectRange]
    ensures ProgressStatus(current, target) == High <==> IntendedMessage(current, target)[0].OverTarget?
    ensures ProgressStatus(current, target) == High ==>
      IntendedMessage(current, target) == [OverTarget(Round(current / target * 100.0 - 100.0))]
  {
    ProgressMessageSingle(current / target * 100.0);
  }
}
