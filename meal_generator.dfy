/**
 * The meal generator: the daily targets split 25/35/40 over breakfast, lunch and dinner,
 * and three fixed template meals per type, stamped with the clock.
 */
module MealGenerator {
  import opened JsMath
  import opened Text
  import opened Nutrition
  import opened Index

  const BreakfastRatio := 0.25
  const LunchRatio := 0.35
  const DinnerRatio := 0.4

  /** One meal's share of the daily targets: each field is `Math.round(target * ratio)`. */
  function SplitTargets(targets: Macros, ratio: real): (r: Macros)
    ensures targets.calories * ratio - 0.5 < r.calories <= targets.calories * ratio + 0.5
    ensures targets.protein * ratio - 0.5 < r.protein <= targets.protein * ratio + 0.5
    ensures targets.carbs * ratio - 0.5 < r.carbs <= targets.carbs * ratio + 0.5
    ensures targets.fat * ratio - 0.5 < r.fat <= targets.fat * ratio + 0.5
    ensures r.calories == r.calories.Floor as real && r.protein == r.protein.Floor as real
    ensures r.carbs == r.carbs.Floor as real && r.fat == r.fat.Floor as real
  {
    Macros(
      Round(targets.calories * ratio) as real,
      Round(targets.protein * ratio) as real,
      Round(targets.carbs * ratio) as real,
      Round(targets.fat * ratio) as real)
  }

  /**
   * The three ratios add up to one, so in every field the three shares add up to the daily
   * target to within 1.5 (each share is at most half a unit off).
   */
  lemma SplitAddsUp(targets: Macros)
    ensures var b, l, d := SplitTargets(targets, BreakfastRatio), SplitTargets(targets, LunchRatio),
        SplitTargets(targets, DinnerRatio);
      && -1.5 < b.calories + l.calories + d.calories - targets.calories <= 1.5
      && -1.5 < b.protein + l.protein + d.protein - targets.protein <= 1.5
      && -1.5 < b.carbs + l.carbs + d.carbs - targets.carbs <= 1.5
      && -1.5 < b.fat + l.fat + d.fat - targets.fat <= 1.5
  {
    assert BreakfastRatio + LunchRatio + DinnerRatio == 1.0;
    SharesAddUp(targets.calories);
    SharesAddUp(targets.protein);
    SharesAddUp(targets.carbs);
    SharesAddUp(targets.fat);
  }

  lemma SharesAddUp(x: real)
    ensures x * BreakfastRatio + x * LunchRatio + x * DinnerRatio == x
  {
  }

  /** A template meal: its name, food lines and stated total. */
  datatype Template = Template(name: string, foods: seq<MealFood>, total: Macros)

  /** The id `<type>-<n>-<clock>`. */
  function MealId(mealType: MealType, n: nat, now: nat): string
    requires n < 10
  {
    mealType.Name() + "-" + [Digit(n)] + "-" + DecimalString(now)
  }

  /** The `n`-th template of a type, as a meal stamped with `now`. */
  function Instantiate(t: Template, mealType: MealType, n: nat, now: nat): Meal
    requires n < 10
  {
    Meal(MealId(mealType, n, now), t.name, mealType, t.foods, t.total)
  }

  const ProteinOatmealBowl := Template("Protein Oatmeal Bowl", [
    MealFood("Oats", 60.0, 222.0, 7.5, 40.0, 4.0),
    MealFood("Protein Powder", 30.0, 120.0, 24.0, 2.0, 1.0),
    MealFood("Banana", 100.0, 89.0, 1.0, 23.0, 0.3),
    MealFood("Almonds", 20.0, 116.0, 4.0, 2.0, 10.0)],
    Macros(547.0, 36.5, 67.0, 15.3))

  const GreekYogurtParfait := Template("Greek Yogurt Parfait", [
    MealFood("Greek Yogurt", 200.0, 130.0, 20.0, 9.0, 0.0),
    MealFood("Granola", 40.0, 180.0, 4.0, 32.0, 6.0),
    MealFood("Berries", 100.0, 57.0, 1.0, 14.0, 0.3),
    MealFood("Honey", 15.0, 46.0, 0.0, 12.0, 0.0)],
    Macros(413.0, 25.0, 67.0, 6.3))

  const AvocadoToastAndEggs := Template("Avocado Toast & Eggs", [
    MealFood("Whole Grain Bread", 60.0, 160.0, 6.0, 28.0, 3.0),
    MealFood("Avocado", 80.0, 128.0, 2.0, 7.0, 12.0),
    MealFood("Eggs", 100.0, 155.0, 13.0, 1.0, 11.0),
    MealFood("Spinach", 30.0, 7.0, 1.0, 1.0, 0.0)],
    Macros(450.0, 22.0, 37.0, 26.0))

  const GrilledChickenSalad := Template("Grilled Chicken Salad", [
    MealFood("Chicken Breast", 150.0, 248.0, 46.0, 0.0, 5.0),
    MealFood("Mixed Greens", 100.0, 20.0, 2.0, 4.0, 0.0),
    MealFood("Quinoa", 80.0, 120.0, 4.0, 22.0, 2.0),
    MealFood("Olive Oil", 15.0, 135.0, 0.0, 0.0, 15.0)],
    Macros(523.0, 52.0, 26.0, 22.0))

  const SalmonRiceBowl := Template("Salmon Rice Bowl", [
    MealFood("Salmon Fillet", 120.0, 248.0, 25.0, 0.0, 15.0),
    MealFood("Brown Rice", 100.0, 111.0, 3.0, 23.0, 1.0),
    MealFood("Broccoli", 150.0, 51.0, 5.0, 10.0, 1.0),
    MealFood("Sesame Oil", 10.0, 88.0, 0.0, 0.0, 10.0)],
    Macros(498.0, 33.0, 33.0, 27.0))

  const TurkeyWrap := Template("Turkey Wrap", [
    MealFood("Whole Wheat Tortilla", 80.0, 210.0, 7.0, 36.0, 5.0),
    MealFood("Turkey Breast", 100.0, 135.0, 25.0, 0.0, 3.0),
    MealFood("Hummus", 30.0, 90.0, 4.0, 8.0, 6.0),
    MealFood("Vegetables", 80.0, 20.0, 1.0, 4.0, 0.0)],
    Macros(455.0, 37.0, 48.0, 14.0))

  const LeanBeefStirFry := Template("Lean Beef Stir-fry", [
    MealFood("Lean Beef", 150.0, 250.0, 36.0, 0.0, 11.0),
    MealFood("Sweet Potato", 200.0, 172.0, 4.0, 40.0, 0.0),
    MealFood("Mixed Vegetables", 150.0, 35.0, 2.0, 7.0, 0.0),
    MealFood("Coconut Oil", 10.0, 90.0, 0.0, 0.0, 10.0)],
    Macros(547.0, 42.0, 47.0, 21.0))

  const BakedCodWithQuinoa := Template("Baked Cod with Quinoa", [
    MealFood("Cod Fillet", 180.0, 158.0, 34.0, 0.0, 1.0),
    MealFood("Quinoa", 120.0, 180.0, 6.0, 33.0, 3.0),
    MealFood("Asparagus", 150.0, 30.0, 3.0, 6.0, 0.0),
    MealFood("Butter", 15.0, 108.0, 0.0, 0.0, 12.0)],
    Macros(476.0, 43.0, 39.0, 16.0))

  const ChickenPasta := Template("Chicken Pasta", [
    MealFood("Chicken Thigh", 140.0, 280.0, 25.0, 0.0, 20.0),
    MealFood("Whole Wheat Pasta", 80.0, 280.0, 12.0, 56.0, 2.0),
    MealFood("Tomato Sauce", 100.0, 35.0, 2.0, 8.0, 0.0),
    MealFood("Parmesan", 20.0, 80.0, 7.0, 1.0, 5.0)],
    Macros(675.0, 46.0, 65.0, 27.0))

  /** `generateBreakfastOptions`: the three breakfast templates; `targets` is not read. */
  function BreakfastOptions(targets: Macros, now1: nat, now2: nat, now3: nat): seq<Meal> {
    [Instantiate(ProteinOatmealBowl, Breakfast, 1, now1),
     Instantiate(GreekYogurtParfait, Breakfast, 2, now2),
     Instantiate(AvocadoToastAndEggs, Breakfast, 3, now3)]
  }

  /** `generateLunchOptions`: the three lunch templates; `targets` is not read. */
  function LunchOptions(targets: Macros, now1: nat, now2: nat, now3: nat): seq<Meal> {
    [Instantiate(GrilledChickenSalad, Lunch, 1, now1),
     Instantiate(SalmonRiceBowl, Lunch, 2, now2),
     Instantiate(TurkeyWrap, Lunch, 3, now3)]
  }

  /** `generateDinnerOptions`: the three dinner templates; `targets` is not read. */
  function DinnerOptions(targets: Macros, now1: nat, now2: nat, now3: nat): seq<Meal> {
    [Instantiate(LeanBeefStirFry, Dinner, 1, now1),
     Instantiate(BakedCodWithQuinoa, Dinner, 2, now2),
     Instantiate(ChickenPasta, Dinner, 3, now3)]
  }

  datatype MealOptions = MealOptions(breakfast: seq<Meal>, lunch: seq<Meal>, dinner: seq<Meal>)

  /**
   * `createMealSuggestions`: each type's options built from its share of the targets. The
   * k-th read of `Date.now()` (0 to 8, in id order) is `clock(k)`.
   */
  function CreateMealSuggestions(targets: Macros, clock: nat -> nat): MealOptions {
    MealOptions(
      BreakfastOptions(SplitTargets(targets, BreakfastRatio), clock(0), clock(1), clock(2)),
      LunchOptions(SplitTargets(targets, LunchRatio), clock(3), clock(4), clock(5)),
      DinnerOptions(SplitTargets(targets, DinnerRatio), clock(6), clock(7), clock(8)))
  }

  /** The options do not depend on the targets at all. */
  lemma OptionsIgnoreTargets(targets: Macros, other: Macros, clock: nat -> nat)
    ensures CreateMealSuggestions(targets, clock) == CreateMealSuggestions(other, clock)
  {
  }

  /** Each bucket holds three meals, each of the bucket's own type. */
  lemma BucketsShape(targets: Macros, clock: nat -> nat)
    ensures var o := CreateMealSuggestions(targets, clock);
      && |o.breakfast| == 3 && |o.lunch| == 3 && |o.dinner| == 3
      && (forall i :: 0 <= i < 3 ==> o.breakfast[i].mealType == Breakfast)
      && (forall i :: 0 <= i < 3 ==> o.lunch[i].mealType == Lunch)
      && (forall i :: 0 <= i < 3 ==> o.dinner[i].mealType == Dinner)
  {
    var o := CreateMealSuggestions(targets, clock);
    forall i | 0 <= i < 3
      ensures o.breakfast[i].mealType == Breakfast
      ensures o.lunch[i].mealType == Lunch
      ensures o.dinner[i].mealType == Dinner
    {
      BreakfastSlot(targets, clock, i);
      LunchSlot(targets, clock, i);
      DinnerSlot(targets, clock, i);
    }
  }

  function LineMacros(line: MealFood): Macros {
    Macros(line.calories, line.protein, line.carbs, line.fat)
  }

  /** The field-wise sum of a meal's food lines. */
  function LinesTotal(lines: seq<MealFood>): Macros {
    Sum(lines, LineMacros)
  }

  /** A template's stated total is the sum of its food lines. */
  predicate Consistent(t: Template) {
    t.total == LinesTotal(t.foods)
  }

  /** The sum of four lines, added in order. */
  lemma SumOfFour(a: MealFood, b: MealFood, c: MealFood, d: MealFood)
    ensures LinesTotal([a, b, c, d]) == Add(Add(Add(Add(Zero, LineMacros(a)), LineMacros(b)), LineMacros(c)), LineMacros(d))
  {
    assert [a, b, c, d][..3] == [a, b, c];
    assert [a, b, c][..2] == [a, b];
    assert [a, b][..1] == [a];
    assert [a][..0] == [];
    assert Sum([], LineMacros) == Zero;
    assert Sum([a], LineMacros) == Add(Sum([], LineMacros), LineMacros(a));
    assert LinesTotal([a, b]) == Add(LinesTotal([a]), LineMacros(b));
    assert LinesTotal([a, b, c]) == Add(LinesTotal([a, b]), LineMacros(c));
    assert LinesTotal([a, b, c, d]) == Add(LinesTotal([a, b, c]), LineMacros(d));
  }

  lemma FourLines(t: Template)
    requires |t.foods| == 4
    requires t.total == Add(Add(Add(Add(Zero, LineMacros(t.foods[0])), LineMacros(t.foods[1])),
      LineMacros(t.foods[2])), LineMacros(t.foods[3]))
    ensures Consistent(t)
  {
    SumOfFour(t.foods[0], t.foods[1], t.foods[2], t.foods[3]);
    assert t.foods == [t.foods[0], t.foods[1], t.foods[2], t.foods[3]];
  }

  /** The nine templates in the order the generator stamps them: breakfast, lunch, dinner. */
  const Templates: seq<Template> := [
    ProteinOatmealBowl, GreekYogurtParfait, AvocadoToastAndEggs,
    GrilledChickenSalad, SalmonRiceBowl, TurkeyWrap,
    LeanBeefStirFry, BakedCodWithQuinoa, ChickenPasta]

  /** Every template's stated total is the field-wise sum of its food lines. */
  lemma TemplatesConsistent(t: Template)
    requires t in Templates
    ensures Consistent(t)
  {
    if t == ProteinOatmealBowl {
      FourLines(t);
    } else if t == GreekYogurtParfait {
      FourLines(t);
    } else if t == AvocadoToastAndEggs {
      FourLines(t);
    } else if t == GrilledChickenSalad {
      FourLines(t);
    } else if t == SalmonRiceBowl {
      FourLines(t);
    } else if t == TurkeyWrap {
      FourLines(t);
    } else if t == LeanBeefStirFry {
      FourLines(t);
    } else if t == BakedCodWithQuinoa {
      FourLines(t);
    } else {
      FourLines(t);
    }
  }

  /** A meal whose total is the field-wise sum of its food lines. */
  predicate MealConsistent(m: Meal) {
    m.totalNutrition == LinesTotal(m.foods)
  }

  /** Every generated meal's total is the sum of its food lines. */
  lemma OptionsConsistent(targets: Macros, clock: nat -> nat)
    ensures var all := AllOptions(CreateMealSuggestions(targets, clock));
      forall i :: 0 <= i < |all| ==> MealConsistent(all[i])
  {
    var all := AllOptions(CreateMealSuggestions(targets, clock));
    forall i | 0 <= i < |all|
      ensures MealConsistent(all[i])
    {
      SlotAt(targets, clock, i);
      TemplatesConsistent(Templates[i]);
    }
  }

  /** Strings that differ at a position both have keep differing whatever follows. */
  lemma PrefixesDiffer(a: string, b: string, x: string, y: string, i: nat)
    requires i < |a| && i < |b| && a[i] != b[i]
    ensures a + x != b + y
  {
    assert (a + x)[i] == a[i] && (b + y)[i] == b[i];
  }

  /** Two ids whose type or number differ are different, whatever the clock read. */
  lemma MealIdsDiffer(t1: MealType, n1: nat, now1: nat, t2: MealType, n2: nat, now2: nat)
    requires n1 < 10 && n2 < 10 && (t1 != t2 || n1 != n2)
    ensures MealId(t1, n1, now1) != MealId(t2, n2, now2)
  {
    var p1, p2 := t1.Name() + "-" + [Digit(n1)] + "-", t2.Name() + "-" + [Digit(n2)] + "-";
    assert MealId(t1, n1, now1) == p1 + DecimalString(now1);
    assert MealId(t2, n2, now2) == p2 + DecimalString(now2);
    if t1 != t2 {
      PrefixesDiffer(p1, p2, DecimalString(now1), DecimalString(now2), 0);
    } else {
      PrefixesDiffer(p1, p2, DecimalString(now1), DecimalString(now2), |t1.Name()| + 1);
    }
  }

  /** The nine meals of one call, breakfast first. */
  function AllOptions(o: MealOptions): seq<Meal> {
    o.breakfast + o.lunch + o.dinner
  }

  /** The `i`-th of the nine meals is the `i`-th template, stamped with its slot and clock read. */
  lemma SlotAt(targets: Macros, clock: nat -> nat, i: nat)
    requires i < 9
    ensures var all := AllOptions(CreateMealSuggestions(targets, clock));
      |all| == 9 && all[i] == Instantiate(Templates[i], TypeAt(i), NumberAt(i), clock(i))
  {
    var o := CreateMealSuggestions(targets, clock);
    var all := AllOptions(o);
    if i < 3 {
      BreakfastSlot(targets, clock, i);
      assert all[i] == o.breakfast[i];
    } else if i < 6 {
      LunchSlot(targets, clock, i - 3);
      assert all[i] == o.lunch[i - 3];
    } else {
      DinnerSlot(targets, clock, i - 6);
      assert all[i] == o.dinner[i - 6];
    }
  }

  lemma BreakfastSlot(targets: Macros, clock: nat -> nat, k: nat)
    requires k < 3
    ensures var o := CreateMealSuggestions(targets, clock);
      |o.breakfast| == 3 && o.breakfast[k] == Instantiate(Templates[k], Breakfast, k + 1, clock(k))
  {
    var o := CreateMealSuggestions(targets, clock);
    if k == 0 {
      assert Templates[0] == ProteinOatmealBowl;
      assert o.breakfast[0] == Instantiate(ProteinOatmealBowl, Breakfast, 1, clock(0));
    } else if k == 1 {
      assert Templates[1] == GreekYogurtParfait;
      assert o.breakfast[1] == Instantiate(GreekYogurtParfait, Breakfast, 2, clock(1));
    } else {
      assert Templates[2] == AvocadoToastAndEggs;
      assert o.breakfast[2] == Instantiate(AvocadoToastAndEggs, Breakfast, 3, clock(2));
    }
  }


  lemma LunchSlot(targets: Macros, clock: nat -> nat, k: nat)
    requires k < 3
    ensures var o := CreateMealSuggestions(targets, clock);
      |o.lunch| == 3 && o.lunch[k] == Instantiate(Templates[k + 3], Lunch, k + 1, clock(k + 3))
  {
    var o := CreateMealSuggestions(targets, clock);
    if k == 0 {
      assert Templates[3] == GrilledChickenSalad;
      assert o.lunch[0] == Instantiate(GrilledChickenSalad, Lunch, 1, clock(3));
    } else if k == 1 {
      assert Templates[4] == SalmonRiceBowl;
      assert o.lunch[1] == Instantiate(SalmonRiceBowl, Lunch, 2, clock(4));
    } else {
      assert Templates[5] == TurkeyWrap;
      assert o.lunch[2] == Instantiate(TurkeyWrap, Lunch, 3, clock(5));
    }
  }


  lemma DinnerSlot(targets: Macros, clock: nat -> nat, k: nat)
    requires k < 3
    ensures var o := CreateMealSuggestions(targets, clock);
      |o.dinner| == 3 && o.dinner[k] == Instantiate(Templates[k + 6], Dinner, k + 1, clock(k + 6))
  {
    var o := CreateMealSuggestions(targets, clock);
    if k == 0 {
      assert Templates[6] == LeanBeefStirFry;
      assert o.dinner[0] == Instantiate(LeanBeefStirFry, Dinner, 1, clock(6));
    } else if k == 1 {
      assert Templates[7] == BakedCodWithQuinoa;
      assert o.dinner[1] == Instantiate(BakedCodWithQuinoa, Dinner, 2, clock(7));
    } else {
      assert Templates[8] == ChickenPasta;
      assert o.dinner[2] == Instantiate(ChickenPasta, Dinner, 3, clock(8));
    }
  }


  /** The nine ids of one call are pairwise distinct, for any clock readings. */
  lemma IdsDistinct(targets: Macros, clock: nat -> nat)
    ensures var all := AllOptions(CreateMealSuggestions(targets, clock));
      |all| == 9 && forall i, j :: 0 <= i < j < 9 ==> all[i].id != all[j].id
  {
    var all := AllOptions(CreateMealSuggestions(targets, clock));
    SlotAt(targets, clock, 0);
    forall i, j | 0 <= i < j < 9
      ensures all[i].id != all[j].id
    {
      SlotAt(targets, clock, i);
      SlotAt(targets, clock, j);
      MealIdsDiffer(TypeAt(i), NumberAt(i), clock(i), TypeAt(j), NumberAt(j), clock(j));
    }
  }

  /** The type of the `i`-th of the nine meals. */
  function TypeAt(i: nat): MealType {
    if i < 3 then Breakfast else if i < 6 then Lunch else Dinner
  }

  /** The number, within its type, of the `i`-th of the nine meals. */
  function NumberAt(i: nat): (n: nat)
    requires i < 9
    ensures 1 <= n <= 3
  {
    if i < 3 then i + 1 else if i < 6 then i - 2 else i - 5
  }
}
