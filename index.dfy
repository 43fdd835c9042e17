/**
 * The page's session state: the daily targets and the plan of selected meals, changed by
 * append, remove-by-id and clear, and the running total over the plan.
 */
module Index {
  import opened Nutrition
  import opened Sequences

  /** `'breakfast' | 'lunch' | 'dinner'`. */
  datatype MealType = Breakfast | Lunch | Dinner {
    /** The type as the string the page uses. */
    function Name(): string {
      match this
      case Breakfast => "breakfast"
      case Lunch => "lunch"
      case Dinner => "dinner"
    }
  }

  /** One food line of a meal, with its nutrition for the stated amount. */
  datatype MealFood = MealFood(name: string, amount: real, calories: real, protein: real, carbs: real, fat: real)

  datatype Meal = Meal(id: string, name: string, mealType: MealType, foods: seq<MealFood>, totalNutrition: Macros)

  /** The targets the page starts with. */
  const DefaultTargets := Macros(2000.0, 100.0, 150.0, 70.0)

  function MealTotal(meal: Meal): Macros {
    meal.totalNutrition
  }

  /** `currentNutrition`: the `reduce` over the plan's meal totals. */
  function PlanTotal(meals: seq<Meal>): Macros {
    Sum(meals, MealTotal)
  }

  /** The filter predicate of `handleRemoveMeal`: keep a meal whose id differs. */
  function OtherId(id: string): Meal -> bool {
    (meal: Meal) => meal.id != id
  }

  /** The meals `handleRemoveMeal` drops: those whose id is `id`. */
  function WithId(id: string): Meal -> bool {
    (meal: Meal) => meal.id == id
  }

  /** The plan without any meal whose id is `id`. */
  function WithoutId(meals: seq<Meal>, id: string): seq<Meal> {
    Filter(meals, OtherId(id))
  }

  /**
   * Removing by id keeps exactly the meals with another id, in plan order and with their
   * multiplicity (what is kept and what is dropped make up the plan); when no meal has that
   * id the plan is unchanged.
   */
  lemma WithoutIdSpec(meals: seq<Meal>, id: string)
    ensures var r := WithoutId(meals, id);
      && IsSubsequence(r, meals)
      && (forall i :: 0 <= i < |r| ==> r[i].id != id)
      && (forall i :: 0 <= i < |meals| && meals[i].id != id ==> meals[i] in r)
    ensures (forall i :: 0 <= i < |meals| ==> meals[i].id != id) ==> WithoutId(meals, id) == meals
    ensures multiset(WithoutId(meals, id)) + multiset(Filter(meals, WithId(id))) == multiset(meals)
  {
    FilterSplit(meals, OtherId(id), WithId(id));
    FilterIsSubsequence(meals, OtherId(id));
    FilterMembers(meals, OtherId(id));
    if forall i :: 0 <= i < |meals| ==> meals[i].id != id {
      FilterAll(meals, OtherId(id));
    }
  }

  /** An empty plan totals zero; adding a meal adds exactly its total to each field. */
  lemma PlanTotalAppend(meals: seq<Meal>, meal: Meal)
    ensures PlanTotal([]) == Zero
    ensures var before, after := PlanTotal(meals), PlanTotal(meals + [meal]);
      && after.calories == before.calories + meal.totalNutrition.calories
      && after.protein == before.protein + meal.totalNutrition.protein
      && after.carbs == before.carbs + meal.totalNutrition.carbs
      && after.fat == before.fat + meal.totalNutrition.fat
  {
    SumAppend(meals, [meal], MealTotal);
    assert [meal][..0] == [];
  }

  /**
   * Adding a meal whose id is not yet in the plan and then removing that id gives back
   * the plan and its total exactly.
   */
  lemma AddThenRemove(meals: seq<Meal>, meal: Meal)
    requires forall i :: 0 <= i < |meals| ==> meals[i].id != meal.id
    ensures WithoutId(meals + [meal], meal.id) == meals
    ensures PlanTotal(WithoutId(meals + [meal], meal.id)) == PlanTotal(meals)
  {
    FilterAppend(meals, [meal], OtherId(meal.id));
    FilterAll(meals, OtherId(meal.id));
    assert [meal][..0] == [];
  }

  /** The page state that `Index` keeps in `useState`. */
  class Session {
    var targets: Macros
    var selectedMeals: seq<Meal>

    /** The initial state: the default targets and an empty plan. */
    constructor ()
      ensures targets == DefaultTargets && selectedMeals == []
    {
      targets := DefaultTargets;
      selectedMeals := [];
    }

    /** `setTargets`, the setter handed to the targets editor. */
    method SetTargets(newTargets: Macros)
      modifies this
      ensures targets == newTargets && selectedMeals == old(selectedMeals)
    {
      targets := newTargets;
    }

    /** `handleAddMeal`: the meal goes at the end of the plan. */
    method AddMeal(meal: Meal)
      modifies this
      ensures selectedMeals == old(selectedMeals) + [meal]
      ensures |selectedMeals| == |old(selectedMeals)| + 1 && selectedMeals[..|old(selectedMeals)|] == old(selectedMeals)
      ensures targets == old(targets)
    {
      selectedMeals := selectedMeals + [meal];
    }

    /** `handleRemoveMeal`: drops every meal with the id, keeping the others in order. */
    method RemoveMeal(id: string)
      modifies this
      ensures selectedMeals == WithoutId(old(selectedMeals), id)
      ensures forall i :: 0 <= i < |selectedMeals| ==> selectedMeals[i].id != id
      ensures IsSubsequence(selectedMeals, old(selectedMeals))
      ensures multiset(selectedMeals) + multiset(Filter(old(selectedMeals), WithId(id))) == multiset(old(selectedMeals))
      ensures targets == old(targets)
    {
      WithoutIdSpec(selectedMeals, id);
      selectedMeals := WithoutId(selectedMeals, id);
    }

    /** `handleClearPlan`. */
    method ClearPlan()
      modifies this
      ensures selectedMeals == [] && targets == old(targets)
    {
      selectedMeals := [];
    }

    /** `currentNutrition` of the current plan. */
    function CurrentNutrition(): Macros
      reads this
    {
      PlanTotal(selectedMeals)
    }
  }

  /**
   * A session that adds a meal with a fresh id and then removes that id is back where it
   * started, plan and total alike.
   */
  method AddThenRemoveRestores(session: Session, meal: Meal)
    requires forall i :: 0 <= i < |session.selectedMeals| ==> session.selectedMeals[i].id != meal.id
    modifies session
    ensures session.selectedMeals == old(session.selectedMeals)
    ensures session.CurrentNutrition() == old(session.CurrentNutrition())
    ensures session.targets == old(session.targets)
  {
    AddThenRemove(session.selectedMeals, meal);
    session.AddMeal(meal);
    session.RemoveMeal(meal.id);
  }
}
