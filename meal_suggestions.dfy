/**
 * The food suggestion heuristic: the gap between targets and intake, then a greedy pass
 * over the table (protein, carbs, fats, then two vegetables), truncated to six entries.
 */
module MealSuggestions {
  import opened JsMath
  import opened Sequences
  import opened Nutrition
  import opened FoodDatabase

  /** `remainingNutrition`: per field, `max(0, target - current)`. */
  function RemainingNutrition(targets: Macros, current: Macros): (r: Macros)
    ensures NonNegative(r)
    ensures r.calories >= targets.calories - current.calories
    ensures r.protein >= targets.protein - current.protein
    ensures r.carbs >= targets.carbs - current.carbs
    ensures r.fat >= targets.fat - current.fat
    ensures r.calories == 0.0 || r.calories == targets.calories - current.calories
    ensures r.protein == 0.0 || r.protein == targets.protein - current.protein
    ensures r.carbs == 0.0 || r.carbs == targets.carbs - current.carbs
    ensures r.fat == 0.0 || r.fat == targets.fat - current.fat
  {
    Macros(
      MaxReal(0.0, targets.calories - current.calories),
      MaxReal(0.0, targets.protein - current.protein),
      MaxReal(0.0, targets.carbs - current.carbs),
      MaxReal(0.0, targets.fat - current.fat))
  }

  /** Why a food is suggested; the number is the food's grams per 100 g of the macro. */
  datatype Reason = HighProtein(per100: real) | GoodCarbSource(per100: real) | HealthyFats(per100: real) | RichInVitamins

  datatype Suggestion = Suggestion(food: Food, amount: int, reason: Reason)

  /** The three macro branches of the greedy pass, with their constants. */
  datatype Branch = ProteinBranch | CarbBranch | FatBranch {

    /** The table category the branch draws from. */
    function Category(): string {
      match this
      case ProteinBranch => "Protein"
      case CarbBranch => "Carbs"
      case FatBranch => "Fats"
    }

    /** The branch runs only when the remaining macro exceeds this. */
    function Trigger(): real {
      match this
      case ProteinBranch => 10.0
      case CarbBranch => 15.0
      case FatBranch => 5.0
    }

    /** A food qualifies only when its macro per 100 g exceeds this. */
    function Density(): real {
      match this
      case ProteinBranch => 15.0
      case CarbBranch => 15.0
      case FatBranch => 10.0
    }

    /** The largest amount suggested, in grams. */
    function Cap(): int {
      match this
      case ProteinBranch => 200
      case CarbBranch => 200
      case FatBranch => 50
    }

    /** The smallest amount worth suggesting, in grams. */
    function MinAmount(): int {
      match this
      case ProteinBranch => 50
      case CarbBranch => 30
      case FatBranch => 10
    }

    /** The branch's macro in a record. */
    function Gap(m: Macros): real {
      match this
      case ProteinBranch => m.protein
      case CarbBranch => m.carbs
      case FatBranch => m.fat
    }

    /** The branch's macro per 100 g of a food. */
    function PerHundred(food: Food): real {
      match this
      case ProteinBranch => food.nutrition.protein
      case CarbBranch => food.nutrition.carbs
      case FatBranch => food.nutrition.fat
    }

    function ReasonFor(food: Food): Reason {
      match this
      case ProteinBranch => HighProtein(food.nutrition.protein)
      case CarbBranch => GoodCarbSource(food.nutrition.carbs)
      case FatBranch => HealthyFats(food.nutrition.fat)
    }

    /** The branch's filter over the table. */
    predicate Qualifies(food: Food) {
      food.category == Category() && PerHundred(food) > Density()
    }
  }

  /** `amount` grams of `food` supply at least `gap` grams of the branch's macro. */
  predicate Covers(b: Branch, food: Food, gap: real, amount: int) {
    amount as real * b.PerHundred(food) >= gap * 100.0
  }

  /** `Math.min(Math.ceil(gap / perHundred * 100), cap)`. */
  function SuggestedAmount(b: Branch, gap: real, food: Food): (r: int)
    requires b.PerHundred(food) > 0.0
    ensures r <= b.Cap()
  {
    Min(Ceil(gap / b.PerHundred(food) * 100.0), b.Cap())
  }

  /**
   * The suggested amount is the fewest whole grams that cover the gap, unless that is
   * more than the cap, in which case it is the cap.
   */
  lemma SuggestedAmountCovers(b: Branch, gap: real, food: Food)
    requires b.PerHundred(food) > 0.0
    ensures var r := SuggestedAmount(b, gap, food);
      && !Covers(b, food, gap, r - 1)
      && (r < b.Cap() ==> Covers(b, food, gap, r))
  {
    var p, c := b.PerHundred(food), Ceil(gap / b.PerHundred(food) * 100.0);
    var r := SuggestedAmount(b, gap, food);
    CeilCovers(gap, p, c);
    if c > b.Cap() {
      assert r == b.Cap();
      MulMonotone((r - 1) as real, (c - 1) as real, p);
      assert !Covers(b, food, gap, r - 1);
    } else {
      assert r == c;
    }
  }

  lemma CeilCovers(gap: real, p: real, c: int)
    requires p > 0.0 && gap / p * 100.0 <= c as real < gap / p * 100.0 + 1.0
    ensures c as real * p >= gap * 100.0
    ensures (c - 1) as real * p < gap * 100.0
  {
    Bracket(gap * 100.0, gap / p * 100.0, p, c);
  }

  /** `c` is the least integer at or above `q`, and `q * p` is `g`. */
  lemma Bracket(g: real, q: real, p: real, c: int)
    requires p > 0.0 && q * p == g && q <= c as real < q + 1.0
    ensures c as real * p >= g
    ensures (c - 1) as real * p < g
  {
    MulMonotone(q, c as real, p);
    MulStrict((c - 1) as real, q, p);
    assert (c - 1) as real * p < q * p;
    assert (c - 1) as real * p < g;
  }

  /** The foods one branch considers, in table order. */
  function Candidates(b: Branch): (r: seq<Food>)
    ensures forall i :: 0 <= i < |r| ==> b.Qualifies(r[i]) && b.PerHundred(r[i]) > 0.0
  {
    FilterMembers(Foods, b.Qualifies);
    Filter(Foods, b.Qualifies)
  }

  /** The `forEach` over a branch's foods: one entry per food whose amount reaches the minimum. */
  function Pass(b: Branch, gap: real, foods: seq<Food>): (r: seq<Suggestion>)
    requires forall i :: 0 <= i < |foods| ==> b.PerHundred(foods[i]) > 0.0
  {
    if |foods| == 0 then []
    else
      var food := foods[|foods| - 1];
      var amount := SuggestedAmount(b, gap, food);
      Pass(b, gap, foods[..|foods| - 1])
        + (if amount >= b.MinAmount() then [Suggestion(food, amount, b.ReasonFor(food))] else [])
  }

  /** `Pass` over one more food adds that food's entry, if any. */
  lemma PassStep(b: Branch, gap: real, foods: seq<Food>, i: nat)
    requires i < |foods| && forall k :: 0 <= k < |foods| ==> b.PerHundred(foods[k]) > 0.0
    ensures var amount := SuggestedAmount(b, gap, foods[i]);
      Pass(b, gap, foods[..i + 1]) == Pass(b, gap, foods[..i])
        + (if amount >= b.MinAmount() then [Suggestion(foods[i], amount, b.ReasonFor(foods[i]))] else [])
  {
    assert foods[..i + 1][..i] == foods[..i];
  }

  /** A branch's entries: none unless the remaining macro exceeds the trigger. */
  function BranchSuggestions(b: Branch, remaining: Macros): seq<Suggestion> {
    if b.Gap(remaining) > b.Trigger() then Pass(b, b.Gap(remaining), Candidates(b)) else []
  }

  predicate IsVegetable(food: Food) {
    food.category == "Vegetables"
  }

  /** `vegetables.slice(0, 2)`: the first two vegetables of the table. */
  function VegetablePicks(): seq<Food> {
    var vegetables := Filter(Foods, IsVegetable);
    vegetables[..Min(2, |vegetables|)]
  }

  /** Each picked vegetable at 100 g. */
  function VegetablePass(foods: seq<Food>): seq<Suggestion> {
    if |foods| == 0 then []
    else VegetablePass(foods[..|foods| - 1]) + [Suggestion(foods[|foods| - 1], 100, RichInVitamins)]
  }

  /** Every entry before truncation: protein, carbs, fats, vegetables. */
  function AllSuggestions(remaining: Macros): seq<Suggestion> {
    BranchSuggestions(ProteinBranch, remaining)
      + BranchSuggestions(CarbBranch, remaining)
      + BranchSuggestions(FatBranch, remaining)
      + VegetablePass(VegetablePicks())
  }

  /** `getSuggestions()` as a value: the first six entries at most. */
  function Suggestions(targets: Macros, current: Macros): seq<Suggestion> {
    var all := AllSuggestions(RemainingNutrition(targets, current));
    all[..Min(6, |all|)]
  }

  /** `getSuggestions`: pushes entries branch by branch, then keeps the first six. */
  method GetSuggestions(targets: Macros, current: Macros) returns (suggestions: seq<Suggestion>)
    ensures suggestions == Suggestions(targets, current)
  {
    var remaining := RemainingNutrition(targets, current);
    var pushed: seq<Suggestion> := [];
    pushed := RunBranch(ProteinBranch, remaining, pushed);
    assert pushed == BranchSuggestions(ProteinBranch, remaining);
    pushed := RunBranch(CarbBranch, remaining, pushed);
    pushed := RunBranch(FatBranch, remaining, pushed);
    pushed := PushVegetables(VegetablePicks(), pushed);
    assert pushed == AllSuggestions(remaining);
    suggestions := pushed[..Min(6, |pushed|)];
  }

  /** One of the three `if (remaining.<macro> > trigger)` blocks. */
  method RunBranch(b: Branch, remaining: Macros, suggestions: seq<Suggestion>) returns (pushed: seq<Suggestion>)
    ensures pushed == suggestions + BranchSuggestions(b, remaining)
  {
    pushed := suggestions;
    if b.Gap(remaining) > b.Trigger() {
      pushed := PushBranch(b, b.Gap(remaining), Candidates(b), pushed);
    }
  }

  /** The vegetable `forEach`: each pick at 100 g. */
  method PushVegetables(vegetables: seq<Food>, suggestions: seq<Suggestion>) returns (pushed: seq<Suggestion>)
    ensures pushed == suggestions + VegetablePass(vegetables)
  {
    pushed := suggestions;
    for i := 0 to |vegetables|
      invariant pushed == suggestions + VegetablePass(vegetables[..i])
    {
      pushed := pushed + [Suggestion(vegetables[i], 100, RichInVitamins)];
      assert vegetables[..i + 1][..i] == vegetables[..i];
    }
    assert vegetables[..|vegetables|] == vegetables;
  }

  /** One branch's `forEach`, appending to `suggestions`. */
  method PushBranch(b: Branch, gap: real, foods: seq<Food>, suggestions: seq<Suggestion>) returns (pushed: seq<Suggestion>)
    requires forall k :: 0 <= k < |foods| ==> b.PerHundred(foods[k]) > 0.0
    ensures pushed == suggestions + Pass(b, gap, foods)
  {
    pushed := suggestions;
    for i := 0 to |foods|
      invariant pushed == suggestions + Pass(b, gap, foods[..i])
    {
      var food := foods[i];
      var amount := SuggestedAmount(b, gap, food);
      if amount >= b.MinAmount() {
        pushed := pushed + [Suggestion(food, amount, b.ReasonFor(food))];
      }
      PassStep(b, gap, foods, i);
    }
    assert foods[..|foods|] == foods;
  }

  // ---------------------------------------------------------------------------
  // What the heuristic promises

  /** The foods of a list of entries, in order. */
  function FoodsOf(entries: seq<Suggestion>): (r: seq<Food>)
    ensures |r| == |entries| && forall i :: 0 <= i < |entries| ==> r[i] == entries[i].food
  {
    if |entries| == 0 then [] else FoodsOf(entries[..|entries| - 1]) + [entries[|entries| - 1].food]
  }

  /** A food gets an entry in a branch's pass: its suggested amount reaches the branch minimum. */
  predicate Reaches(b: Branch, gap: real, food: Food) {
    b.PerHundred(food) > 0.0 && SuggestedAmount(b, gap, food) >= b.MinAmount()
  }

  /** An entry the branch `b` could have emitted for the gap `gap`. */
  predicate Emitted(b: Branch, gap: real, e: Suggestion) {
    && b.Qualifies(e.food)
    && e.reason == b.ReasonFor(e.food)
    && b.MinAmount() <= e.amount <= b.Cap()
    && !Covers(b, e.food, gap, e.amount - 1)
    && (e.amount < b.Cap() ==> Covers(b, e.food, gap, e.amount))
  }

  /** `Reaches` as a filter predicate. */
  function Reaching(b: Branch, gap: real): Food -> bool {
    food => Reaches(b, gap, food)
  }

  /** A pass over one more food: the earlier entries, then the new food's entry if it reaches the minimum. */
  lemma PassSnoc(b: Branch, gap: real, foods: seq<Food>)
    requires |foods| > 0 && forall i :: 0 <= i < |foods| ==> b.PerHundred(foods[i]) > 0.0
    ensures var food := foods[|foods| - 1];
      Pass(b, gap, foods) == Pass(b, gap, foods[..|foods| - 1])
        + (if Reaches(b, gap, food) then [Suggestion(food, SuggestedAmount(b, gap, food), b.ReasonFor(food))] else [])
  {
  }

  lemma FoodsOfSnoc(entries: seq<Suggestion>, e: Suggestion)
    ensures FoodsOf(entries + [e]) == FoodsOf(entries) + [e.food]
  {
    assert (entries + [e])[..|entries|] == entries;
  }

  /** A pass over qualifying foods emits, in order, exactly the foods whose amount reaches the minimum. */
  lemma {:induction false} PassFoods(b: Branch, gap: real, foods: seq<Food>)
    requires forall i :: 0 <= i < |foods| ==> b.PerHundred(foods[i]) > 0.0
    ensures FoodsOf(Pass(b, gap, foods)) == Filter(foods, Reaching(b, gap))
  {
    if |foods| > 0 {
      var init, food := foods[..|foods| - 1], foods[|foods| - 1];
      PassFoods(b, gap, init);
      PassSnoc(b, gap, foods);
      if Reaches(b, gap, food) {
        FoodsOfSnoc(Pass(b, gap, init), Suggestion(food, SuggestedAmount(b, gap, food), b.ReasonFor(food)));
      } else {
        assert Pass(b, gap, foods) == Pass(b, gap, init);
      }
    }
  }

  /** Each entry of a pass over qualifying foods names the branch's reason and is the fewest covering grams, capped. */
  lemma {:induction false} PassEmitted(b: Branch, gap: real, foods: seq<Food>)
    requires forall i :: 0 <= i < |foods| ==> b.Qualifies(foods[i]) && b.PerHundred(foods[i]) > 0.0
    ensures forall i :: 0 <= i < |Pass(b, gap, foods)| ==> Emitted(b, gap, Pass(b, gap, foods)[i])
  {
    if |foods| > 0 {
      var init, food := foods[..|foods| - 1], foods[|foods| - 1];
      PassEmitted(b, gap, init);
      PassSnoc(b, gap, foods);
      SuggestedAmountCovers(b, gap, food);
    }
  }

  /**
   * A branch emits nothing unless its gap exceeds the trigger; when it runs, its foods are
   * exactly the catalog foods that qualify and reach the minimum, in catalog order.
   */
  lemma BranchEntries(b: Branch, remaining: Macros)
    ensures b.Gap(remaining) <= b.Trigger() ==> BranchSuggestions(b, remaining) == []
    ensures b.Gap(remaining) > b.Trigger() ==>
      FoodsOf(BranchSuggestions(b, remaining)) == Filter(Candidates(b), Reaching(b, b.Gap(remaining)))
    ensures IsSubsequence(FoodsOf(BranchSuggestions(b, remaining)), Foods)
    ensures forall i :: 0 <= i < |BranchSuggestions(b, remaining)| ==>
      Emitted(b, b.Gap(remaining), BranchSuggestions(b, remaining)[i])
  {
    var gap := b.Gap(remaining);
    if gap > b.Trigger() {
      PassFoods(b, gap, Candidates(b));
      PassEmitted(b, gap, Candidates(b));
      FilterIsSubsequence(Candidates(b), Reaching(b, gap));
      FilterIsSubsequence(Foods, b.Qualifies);
      SubsequenceTransitive(FoodsOf(BranchSuggestions(b, remaining)), Candidates(b), Foods);
    } else {
      assert FoodsOf([]) == [];
    }
  }

  /** The vegetables are broccoli and spinach, the first two `Vegetables` foods of the catalog. */
  lemma VegetablePicksAre()
    ensures VegetablePicks() == [Broccoli, Spinach]
  {
    CatalogVegetables();
  }

  lemma CatalogVegetables()
    ensures Filter(Foods, IsVegetable) == [Broccoli, Spinach]
  {
    CatalogSplit();
    NoVegetablesBefore();
    VegetablesAtEnd();
    FilterAppend(Foods[..12], Foods[12..], IsVegetable);
  }

  lemma CatalogSplit()
    ensures Foods == Foods[..12] + Foods[12..]
  {
  }

  lemma NoVegetablesBefore()
    ensures Filter(Foods[..12], IsVegetable) == []
  {
    FilterNone(Foods[..12], IsVegetable);
  }

  lemma VegetablesAtEnd()
    ensures Filter(Foods[12..], IsVegetable) == [Broccoli, Spinach]
  {
    FilterAll(Foods[12..], IsVegetable);
  }

  /** The vegetable entries: each pick at 100 g, in order. */
  lemma {:induction false} VegetableEntries(foods: seq<Food>)
    ensures FoodsOf(VegetablePass(foods)) == foods
    ensures forall i :: 0 <= i < |foods| ==>
      VegetablePass(foods)[i].amount == 100 && VegetablePass(foods)[i].reason == RichInVitamins
  {
    if |foods| > 0 {
      var init, food := foods[..|foods| - 1], foods[|foods| - 1];
      VegetableEntries(init);
      FoodsOfSnoc(VegetablePass(init), Suggestion(food, 100, RichInVitamins));
      assert init + [food] == foods;
    }
  }

  /** The group of an entry: protein, carbs, fats, vegetables. */
  function Rank(reason: Reason): nat {
    match reason
    case HighProtein(_) => 0
    case GoodCarbSource(_) => 1
    case HealthyFats(_) => 2
    case RichInVitamins => 3
  }

  /** Entries appear group by group: no entry of a later group precedes one of an earlier group. */
  predicate GroupOrdered(entries: seq<Suggestion>) {
    forall i, j :: 0 <= i < j < |entries| ==> Rank(entries[i].reason) <= Rank(entries[j].reason)
  }

  /** Every entry belongs to a group no later than `k`. */
  predicate RanksAtMost(entries: seq<Suggestion>, k: nat) {
    forall i :: 0 <= i < |entries| ==> Rank(entries[i].reason) <= k
  }

  /** Every entry belongs to group `k`. */
  predicate RankedAt(entries: seq<Suggestion>, k: nat) {
    forall i :: 0 <= i < |entries| ==> Rank(entries[i].reason) == k
  }

  /** One entry's amount bound, by its group. */
  predicate InRange(e: Suggestion) {
    match e.reason
    case HighProtein(per100) => per100 == e.food.nutrition.protein && e.food.category == "Protein" && 50 <= e.amount <= 200
    case GoodCarbSource(per100) => per100 == e.food.nutrition.carbs && e.food.category == "Carbs" && 30 <= e.amount <= 200
    case HealthyFats(per100) => per100 == e.food.nutrition.fat && e.food.category == "Fats" && 10 <= e.amount <= 50
    case RichInVitamins => e.food.category == "Vegetables" && e.amount == 100
  }

  predicate AllInRange(entries: seq<Suggestion>) {
    forall i :: 0 <= i < |entries| ==> InRange(entries[i])
  }

  /** Appending a group after earlier groups keeps the group order. */
  lemma AppendGroup(a: seq<Suggestion>, b: seq<Suggestion>, k: nat)
    requires GroupOrdered(a) && RanksAtMost(a, k) && RankedAt(b, k) && AllInRange(a) && AllInRange(b)
    ensures GroupOrdered(a + b) && RanksAtMost(a + b, k) && AllInRange(a + b)
  {
    assert forall i :: 0 <= i < |a + b| ==> (a + b)[i] == if i < |a| then a[i] else b[i - |a|];
  }

  function BranchRank(b: Branch): nat {
    match b
    case ProteinBranch => 0
    case CarbBranch => 1
    case FatBranch => 2
  }

  /** An entry a branch emits is in range for that branch's group. */
  lemma EmittedInRange(b: Branch, gap: real, e: Suggestion)
    requires Emitted(b, gap, e)
    ensures Rank(e.reason) == BranchRank(b) && InRange(e)
  {
  }

  /** The entries of one macro branch all belong to its group and are in range. */
  lemma BranchRanked(b: Branch, remaining: Macros)
    ensures RankedAt(BranchSuggestions(b, remaining), BranchRank(b))
    ensures AllInRange(BranchSuggestions(b, remaining))
  {
    BranchEntries(b, remaining);
    var entries := BranchSuggestions(b, remaining);
    forall i | 0 <= i < |entries|
      ensures Rank(entries[i].reason) == BranchRank(b) && InRange(entries[i])
    {
      EmittedInRange(b, b.Gap(remaining), entries[i]);
    }
  }

  lemma VegetablesRanked()
    ensures RankedAt(VegetablePass(VegetablePicks()), 3) && AllInRange(VegetablePass(VegetablePicks()))
    ensures |VegetablePass(VegetablePicks())| == 2
  {
    VegetablePicksAre();
    VegetableEntries(VegetablePicks());
    assert FoodsOf(VegetablePass(VegetablePicks())) == [Broccoli, Spinach];
  }

  /** Every entry before truncation is in range, and the groups come in order. */
  lemma AllSuggestionsShape(remaining: Macros)
    ensures GroupOrdered(AllSuggestions(remaining)) && AllInRange(AllSuggestions(remaining))
    ensures |AllSuggestions(remaining)| >= 2
  {
    var p, c, f := BranchSuggestions(ProteinBranch, remaining), BranchSuggestions(CarbBranch, remaining),
      BranchSuggestions(FatBranch, remaining);
    var v := VegetablePass(VegetablePicks());
    BranchRanked(ProteinBranch, remaining);
    BranchRanked(CarbBranch, remaining);
    BranchRanked(FatBranch, remaining);
    VegetablesRanked();
    AppendGroup([], p, 0);
    assert [] + p == p;
    AppendGroup(p, c, 1);
    AppendGroup(p + c, f, 2);
    AppendGroup(p + c + f, v, 3);
  }

  /**
   * The shown list: at most six entries, a prefix of the full list, every entry in range and
   * the groups in order. It is never empty, because the two vegetables are always appended.
   */
  lemma SuggestionsShape(targets: Macros, current: Macros)
    ensures var r := Suggestions(targets, current);
      var all := AllSuggestions(RemainingNutrition(targets, current));
      && 2 <= |r| <= 6
      && r == all[..|r|]
      && (|all| <= 6 ==> r == all)
      && GroupOrdered(r)
      && AllInRange(r)
  {
    var all := AllSuggestions(RemainingNutrition(targets, current));
    AllSuggestionsShape(RemainingNutrition(targets, current));
    var r := Suggestions(targets, current);
    assert forall i :: 0 <= i < |r| ==> r[i] == all[i];
  }

  /** With every gap at or under its trigger, only the two vegetables are suggested. */
  lemma OnlyVegetables(targets: Macros, current: Macros)
    requires targets.protein - current.protein <= 10.0
    requires targets.carbs - current.carbs <= 15.0
    requires targets.fat - current.fat <= 5.0
    ensures Suggestions(targets, current)
      == [Suggestion(Broccoli, 100, RichInVitamins), Suggestion(Spinach, 100, RichInVitamins)]
  {
    var remaining := RemainingNutrition(targets, current);
    assert remaining.protein <= 10.0 && remaining.carbs <= 15.0 && remaining.fat <= 5.0;
    BranchEntries(ProteinBranch, remaining);
    BranchEntries(CarbBranch, remaining);
    BranchEntries(FatBranch, remaining);
    VegetablePicksAre();
    assert [Broccoli, Spinach][..1] == [Broccoli];
    assert AllSuggestions(remaining) == VegetablePass([Broccoli, Spinach]);
  }

  /** The protein foods dense enough to suggest: chicken breast, salmon and tofu (eggs and yogurt are under 15 g). */
  lemma ProteinCandidates()
    ensures Candidates(ProteinBranch) == [ChickenBreast, Salmon, Tofu]
  {
    var q := ProteinBranch.Qualifies;
    ProteinHead();
    FilterNone(Foods[5..], q);
    CatalogSplitAt(5);
    FilterAppend(Foods[..5], Foods[5..], q);
  }

  lemma CatalogSplitAt(k: nat)
    requires k <= |Foods|
    ensures Foods == Foods[..k] + Foods[k..]
  {
  }

  /** The catalog cut into three consecutive slices. */
  lemma CatalogSplit3(lo: nat, hi: nat)
    requires lo <= hi <= |Foods|
    ensures Foods == Foods[..lo] + Foods[lo..hi] + Foods[hi..]
  {
  }

  /** Every carb food qualifies: brown rice, quinoa, sweet potato and oats. */
  lemma CarbCandidates()
    ensures Candidates(CarbBranch) == [BrownRice, Quinoa, SweetPotato, Oats]
  {
    var q := CarbBranch.Qualifies;
    CatalogSplit3(5, 9);
    CarbsBefore();
    CarbSlice();
    CarbsAfter();
    FilterAppend(Foods[..5], Foods[5..9], q);
    FilterAppend(Foods[..5] + Foods[5..9], Foods[9..], q);
  }

  lemma CarbsBefore()
    ensures Filter(Foods[..5], CarbBranch.Qualifies) == []
  {
    FilterNone(Foods[..5], CarbBranch.Qualifies);
  }

  lemma CarbSlice()
    ensures Filter(Foods[5..9], CarbBranch.Qualifies) == [BrownRice, Quinoa, SweetPotato, Oats]
  {
    var slice := Foods[5..9];
    assert slice == [BrownRice, Quinoa, SweetPotato, Oats];
    assert CarbBranch.Qualifies(BrownRice) && CarbBranch.Qualifies(Quinoa);
    assert CarbBranch.Qualifies(SweetPotato) && CarbBranch.Qualifies(Oats);
    FilterAll(slice, CarbBranch.Qualifies);
  }

  lemma CarbsAfter()
    ensures Filter(Foods[9..], CarbBranch.Qualifies) == []
  {
    FilterNone(Foods[9..], CarbBranch.Qualifies);
  }

  /** Every fat food qualifies: avocado, almonds and olive oil. */
  lemma FatCandidates()
    ensures Candidates(FatBranch) == [Avocado, Almonds, OliveOil]
  {
    var q := FatBranch.Qualifies;
    CatalogSplit3(9, 12);
    FatsBefore();
    FatSlice();
    FatsAfter();
    FilterAppend(Foods[..9], Foods[9..12], q);
    FilterAppend(Foods[..9] + Foods[9..12], Foods[12..], q);
  }

  lemma FatsBefore()
    ensures Filter(Foods[..9], FatBranch.Qualifies) == []
  {
    FilterNone(Foods[..9], FatBranch.Qualifies);
  }

  lemma FatSlice()
    ensures Filter(Foods[9..12], FatBranch.Qualifies) == [Avocado, Almonds, OliveOil]
  {
    var slice := Foods[9..12];
    assert slice == [Avocado, Almonds, OliveOil];
    assert FatBranch.Qualifies(Avocado) && FatBranch.Qualifies(Almonds) && FatBranch.Qualifies(OliveOil);
    FilterAll(slice, FatBranch.Qualifies);
  }

  lemma FatsAfter()
    ensures Filter(Foods[12..], FatBranch.Qualifies) == []
  {
    FilterNone(Foods[12..], FatBranch.Qualifies);
  }

  lemma ProteinHead()
    ensures Filter(Foods[..5], ProteinBranch.Qualifies) == [ChickenBreast, Salmon, Tofu]
  {
    ProteinHead3();
    FilterPrefixStep(Foods, ProteinBranch.Qualifies, 3);
    FilterPrefixStep(Foods, ProteinBranch.Qualifies, 4);
  }

  lemma ProteinHead3()
    ensures Filter(Foods[..3], ProteinBranch.Qualifies) == [ChickenBreast, Salmon]
  {
    assert Foods[..0] == [];
    FilterPrefixStep(Foods, ProteinBranch.Qualifies, 0);
    FilterPrefixStep(Foods, ProteinBranch.Qualifies, 1);
    FilterPrefixStep(Foods, ProteinBranch.Qualifies, 2);
  }



  /** A gap at least a capped amount's worth gives the cap. */
  lemma CappedAmount(b: Branch, gap: real, food: Food)
    requires b.PerHundred(food) > 0.0 && gap / b.PerHundred(food) * 100.0 >= b.Cap() as real
    ensures SuggestedAmount(b, gap, food) == b.Cap()
  {
  }

  /** A pass over three foods that all hit the cap. */
  lemma PassOfThreeCapped(b: Branch, gap: real, x: Food, y: Food, z: Food)
    requires b.PerHundred(x) > 0.0 && b.PerHundred(y) > 0.0 && b.PerHundred(z) > 0.0
    requires SuggestedAmount(b, gap, x) == b.Cap() == SuggestedAmount(b, gap, y) == SuggestedAmount(b, gap, z)
    requires b.Cap() >= b.MinAmount()
    ensures Pass(b, gap, [x, y, z])
      == [Suggestion(x, b.Cap(), b.ReasonFor(x)), Suggestion(y, b.Cap(), b.ReasonFor(y)), Suggestion(z, b.Cap(), b.ReasonFor(z))]
  {
    assert [x, y, z][..2] == [x, y];
    assert [x, y][..1] == [x];
    assert [x][..0] == [];
    PassSnoc(b, gap, [x]);
    PassSnoc(b, gap, [x, y]);
    PassSnoc(b, gap, [x, y, z]);
  }

  /** The protein entries of the worked case: a protein gap of 80 g caps all three foods at 200 g. */
  lemma WorkedProtein()
    ensures BranchSuggestions(ProteinBranch, Macros(1500.0, 80.0, 100.0, 60.0))
      == [Suggestion(ChickenBreast, 200, HighProtein(31.0)), Suggestion(Salmon, 200, HighProtein(25.0)),
          Suggestion(Tofu, 200, HighProtein(17.0))]
  {
    ProteinCandidates();
    CappedAmount(ProteinBranch, 80.0, ChickenBreast);
    CappedAmount(ProteinBranch, 80.0, Salmon);
    CappedAmount(ProteinBranch, 80.0, Tofu);
    PassOfThreeCapped(ProteinBranch, 80.0, ChickenBreast, Salmon, Tofu);
  }

  /** The carb entries of the worked case: a carb gap of 100 g caps the first three carb foods at 200 g. */
  lemma WorkedCarbs()
    ensures var carbs := BranchSuggestions(CarbBranch, Macros(1500.0, 80.0, 100.0, 60.0));
      |carbs| >= 3
      && carbs[..3] == [Suggestion(BrownRice, 200, GoodCarbSource(23.0)), Suggestion(Quinoa, 200, GoodCarbSource(22.0)),
          Suggestion(SweetPotato, 200, GoodCarbSource(21.0))]
  {
    CarbCandidates();
    var foods := [BrownRice, Quinoa, SweetPotato, Oats];
    CappedAmount(CarbBranch, 100.0, BrownRice);
    CappedAmount(CarbBranch, 100.0, Quinoa);
    CappedAmount(CarbBranch, 100.0, SweetPotato);
    PassOfThreeCapped(CarbBranch, 100.0, BrownRice, Quinoa, SweetPotato);
    assert foods[..3] == [BrownRice, Quinoa, SweetPotato];
    PassSnoc(CarbBranch, 100.0, foods);
  }

  /**
   * The worked case: targets 2000/100/150/70 against an intake of 500/20/50/10 leave gaps of
   * 80 g protein, 100 g carbs and 60 g fat, and the six entries shown are chicken breast,
   * salmon, tofu, brown rice, quinoa and sweet potato, each at 200 g.
   */
  lemma WorkedExample()
    ensures Suggestions(Macros(2000.0, 100.0, 150.0, 70.0), Macros(500.0, 20.0, 50.0, 10.0))
      == [Suggestion(ChickenBreast, 200, HighProtein(31.0)), Suggestion(Salmon, 200, HighProtein(25.0)),
          Suggestion(Tofu, 200, HighProtein(17.0)), Suggestion(BrownRice, 200, GoodCarbSource(23.0)),
          Suggestion(Quinoa, 200, GoodCarbSource(22.0)), Suggestion(SweetPotato, 200, GoodCarbSource(21.0))]
  {
    var remaining := RemainingNutrition(Macros(2000.0, 100.0, 150.0, 70.0), Macros(500.0, 20.0, 50.0, 10.0));
    assert remaining == Macros(1500.0, 80.0, 100.0, 60.0);
    WorkedProtein();
    WorkedCarbs();
    var p, c := BranchSuggestions(ProteinBranch, remaining), BranchSuggestions(CarbBranch, remaining);
    var rest := BranchSuggestions(FatBranch, remaining) + VegetablePass(VegetablePicks());
    assert AllSuggestions(remaining) == p + c + rest;
    assert (p + c + rest)[..6] == p + c[..3];
  }
}
