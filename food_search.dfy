/**
 * The food search panel: a query, its results, the food picked from them and the amount to
 * add, with the add button that hands the pair to the meal being built.
 */
module FoodSearch {
  import opened Wrappers
  import opened JsMath
  import opened Text
  import opened FoodDatabase

  /** The panel's `useState` slots. */
  class FoodPicker {
    var searchQuery: string
    var searchResults: seq<Food>
    var selectedFood: Option<Food>
    var amount: real

    /** The initial state: no query, no results, nothing picked, 100 g. */
    constructor ()
      ensures searchQuery == "" && searchResults == [] && selectedFood == None && amount == 100.0
    {
      searchQuery := "";
      searchResults := [];
      selectedFood := None;
      amount := 100.0;
    }

    /** `handleSearch`: the query and the table's matches for it; the pick is kept. */
    method HandleSearch(query: string)
      modifies this
      ensures searchQuery == query && searchResults == SearchFoods(query)
      ensures IsBlank(query) ==> searchResults == Foods
      ensures selectedFood == old(selectedFood) && amount == old(amount)
    {
      searchQuery := query;
      searchResults := SearchFoods(query);
    }

    /** `handleFoodSelect`: picks the food and preloads its usual serving. */
    method HandleFoodSelect(food: Food)
      modifies this
      ensures selectedFood == Some(food) && amount == food.commonServing.amount
      ensures searchQuery == old(searchQuery) && searchResults == old(searchResults)
    {
      selectedFood := Some(food);
      amount := food.commonServing.amount;
    }

    /** The amount input: `parseFloat(text) || 0`, with `None` for text that does not parse. */
    method SetAmount(parsed: Option<real>)
      modifies this
      ensures amount == ParsedOrZero(parsed)
      ensures searchQuery == old(searchQuery) && searchResults == old(searchResults)
      ensures selectedFood == old(selectedFood)
    {
      amount := ParsedOrZero(parsed);
    }

    /** Whether the add button does anything: a food is picked and the amount is positive. */
    predicate CanAdd()
      reads this
    {
      selectedFood.Some? && amount > 0.0
    }

    /**
     * `handleAddFood`: when a food is picked and the amount is positive, hands over the pair
     * and resets the pick and the amount; otherwise does nothing at all.
     */
    method HandleAddFood() returns (added: Option<(Food, real)>)
      modifies this
      ensures old(CanAdd()) ==> added == Some((old(selectedFood).value, old(amount)))
      ensures old(CanAdd()) ==> selectedFood == None && amount == 100.0
      ensures !old(CanAdd()) ==> added == None && selectedFood == old(selectedFood) && amount == old(amount)
      ensures added.Some? ==> added.value.1 > 0.0
      ensures searchQuery == old(searchQuery) && searchResults == old(searchResults)
    {
      if selectedFood.Some? && amount > 0.0 {
        added := Some((selectedFood.value, amount));
        selectedFood := None;
        amount := 100.0;
      } else {
        added := None;
      }
    }

    /** `previewNutrition`: the picked food scaled to the amount, or nothing when none is picked. */
    function PreviewNutrition(): (r: Option<NutritionFacts>)
      reads this
      ensures r.Some? <==> selectedFood.Some?
      ensures r.Some? ==> r.value == CalculateNutrition(selectedFood.value, amount)
      ensures r.Some? ==> r.value.fiber == None
    {
      match selectedFood
      case None => None
      case Some(food) => Some(CalculateNutrition(food, amount))
    }
  }

  /**
   * Picking any food of the table and pressing add without touching the amount hands over
   * that food at its usual serving, and the panel is ready for the next pick.
   */
  method SelectThenAdd(picker: FoodPicker, i: nat) returns (added: Option<(Food, real)>)
    requires i < |Foods|
    modifies picker
    ensures added == Some((Foods[i], Foods[i].commonServing.amount))
    ensures picker.selectedFood == None && picker.amount == 100.0
  {
    ServingsPositive();
    picker.HandleFoodSelect(Foods[i]);
    added := picker.HandleAddFood();
  }

  /** An amount that does not parse, or parses to zero or less, makes the add button do nothing. */
  method UnparsableAmountBlocksAdd(picker: FoodPicker, parsed: Option<real>) returns (added: Option<(Food, real)>)
    requires parsed.None? || parsed.value <= 0.0
    modifies picker
    ensures added == None
    ensures picker.selectedFood == old(picker.selectedFood)
  {
    picker.SetAmount(parsed);
    added := picker.HandleAddFood();
  }
}
