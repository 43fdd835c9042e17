# Meal planner: a verified model of the planning core

This project is a Dafny model of the planning logic behind a single-page meal planner. The model covers:

- the fourteen-food nutrition table;
- `calculateNutrition`, which scales a food to an amount and rounds the result;
- the food search, both by text and by category;
- the food-suggestion heuristic, which works from the gap between the daily targets and what the plan already holds;
- the meal builder's running total, its progress percentage, and `getProgressColor`, which is defined but never called, so its colour never reaches the screen;
- the plan view's per-macro status (shown as an icon colour and a bar colour), its grouping of meals by type, and the line shown under each bar;
- the meal generator: the 25/35/40 split of the targets and nine template meals stamped with clock-based ids;
- the targets form, with its four presets;
- the page state: the targets plus the list of selected meals, changed by add, remove-by-id and clear.

The model has one module per source file, plus small shared modules:

- `Wrappers` holds the optional value.
- `JsMath` holds `Math.round`, `Math.ceil`, `min`, `max` and `parseFloat(...) || 0`.
- `Text` holds ASCII lower-casing, blank strings, `includes` and decimal digits.
- `Sequences` holds an order-keeping filter and the subsequence relation.
- `Nutrition` holds the calories/protein/carbs/fat record and its `reduce` sum.

The code is written in different styles, and the model follows each:

- Pure helpers become functions with lemmas.
- The loops in `getSuggestions` become methods with loop invariants. Each method is proved equal to a specification function, and the properties are proved about that function.
- The page state (`Index`) is the class `Index.Session`. The search panel's state (`FoodSearch`) is the class `FoodSearch.FoodPicker`. Their methods update fields in place.

Numbers are exact reals. `Math.round`, `Math.ceil`, `Math.min` and `Math.max` are written out over them. JavaScript's results for a zero target (`Infinity`, `NaN`) appear only in the branches where the source divides by zero.

`getProgressPercentage` is defined twice, with the same body: at src/components/MealBuilder.tsx:44-47 and at src/components/MealPlan.tsx:39-42. `MealBuilder.ProgressPercentage` models both copies, and `MealPlan.ShownMessage` reuses it.

## Model

| member | source | states |
|---|---|---|
| JsMath.Round | src/components/MealGenerator.tsx:43-46 | `Math.round`: the result is within half a unit of the input, and halves round upwards |
| JsMath.Round1 | src/utils/foodDatabase.ts:147-149 | rounding to one decimal moves a value by at most 0.05, and the result has one decimal |
| JsMath.Ceil | src/components/MealSuggestions.tsx:52 | `Math.ceil`: the least integer not below the input |
| JsMath.ParsedOrZero | src/components/MacroTargets.tsx:46 | `parseFloat(v) \|\| 0` is zero exactly when the text does not parse or parses to zero; otherwise it is the parsed number, sign included |
| JsMath.RoundMonotone | src/utils/foodDatabase.ts:146 | `Math.round` never decreases as its input grows |
| Text.ToLower | src/utils/foodDatabase.ts:130-133 | `toLowerCase` keeps the length and lower-cases letter by letter |
| Text.IsBlankIff | src/utils/foodDatabase.ts:128 | `!query.trim()` holds exactly when every character is whitespace |
| Text.IncludesIff | src/utils/foodDatabase.ts:131-132 | `includes` holds exactly when the query occurs at some position; the empty query occurs everywhere |
| Text.DecimalString | src/components/MealGenerator.tsx:73 | the clock value in an id is a non-empty string of decimal digits, with no leading zero, whose decimal value is the clock value |
| Text.DecimalStringInjective | src/components/MealGenerator.tsx:73 | different clock values print as different strings |
| Nutrition.AddLaws | src/pages/Index.tsx:61-69 | the `reduce` step is commutative and associative, and the all-zero start value is its unit on both sides |
| Nutrition.SumAppend | src/pages/Index.tsx:61-69 | the `reduce` over a concatenation is the sum of the two reductions |
| Nutrition.SumPermutation | src/components/MealBuilder.tsx:34-42 | the `reduce` total does not depend on the order of the list |
| FoodDatabase.TableIsValid | src/utils/foodDatabase.ts:18-124 | the table's ids are pairwise distinct; every common serving is positive; every value is non-negative; calories are whole and macros have one decimal; no food sets fiber |
| FoodDatabase.CalculateNutrition | src/utils/foodDatabase.ts:142-151 | the scaled nutrition never carries a fiber value |
| FoodDatabase.CalculateNutritionAccuracy | src/utils/foodDatabase.ts:142-151 | each field is the exactly scaled value, rounded: calories to within 0.5 kcal, macros to within 0.05 g, and the result has whole calories and one-decimal macros |
| FoodDatabase.CalculateAtHundred | src/utils/foodDatabase.ts:142-151 | at 100 g every food in the table gives back exactly its stored per-100 g values |
| FoodDatabase.CalculateAtZero | src/utils/foodDatabase.ts:142-151 | at 0 g every field is zero |
| FoodDatabase.CalculateMonotone | src/utils/foodDatabase.ts:142-151 | for non-negative nutrition, a larger amount never gives a smaller value in any field |
| FoodDatabase.SearchFoods | src/utils/foodDatabase.ts:126-135 | a blank query returns the whole table; any other query returns exactly the foods whose lower-cased name or category includes the lower-cased query, in table order |
| FoodDatabase.FoodsByCategory | src/utils/foodDatabase.ts:137-140 | exactly the foods of that category, in table order |
| MealSuggestions.RemainingNutrition | src/components/MealSuggestions.tsx:33-38 | each field is `max(0, target - current)`: never negative, at least the difference, and equal to either 0 or the difference |
| MealSuggestions.SuggestedAmount | src/components/MealSuggestions.tsx:52-53 | the suggested amount never exceeds the branch cap of 200, 200 or 50 g |
| MealSuggestions.SuggestedAmountCovers | src/components/MealSuggestions.tsx:52-53 | the amount is the fewest whole grams that cover the gap, unless that exceeds the cap, in which case it is the cap |
| MealSuggestions.Candidates | src/components/MealSuggestions.tsx:47-49 | each branch's foods have the branch category and more than 15, 15 or 10 g of the macro per 100 g |
| MealSuggestions.GetSuggestions | src/components/MealSuggestions.tsx:42-117 | the pushes done branch by branch, followed by `slice(0, 6)`, give exactly `Suggestions`: the first six of the protein, carb, fat and vegetable entries, in that order |
| MealSuggestions.RunBranch | src/components/MealSuggestions.tsx:46-103 | one `if (remaining.<macro> > trigger)` block appends exactly that branch's entries |
| MealSuggestions.PushBranch | src/components/MealSuggestions.tsx:51-62 | the branch's `forEach` appends exactly the entries of `Pass` |
| MealSuggestions.PushVegetables | src/components/MealSuggestions.tsx:106-113 | the vegetable `forEach` appends each pick at 100 g with the vitamins reason |
| MealSuggestions.PassFoods | src/components/MealSuggestions.tsx:51-62 | a pass emits exactly the foods whose suggested amount reaches the branch minimum, in order |
| MealSuggestions.PassEmitted | src/components/MealSuggestions.tsx:51-62 | every emitted entry is for a qualifying food and carries the branch's reason; its amount lies between the minimum and the cap, and it is the fewest whole grams that cover the gap unless the cap applies |
| MealSuggestions.BranchEntries | src/components/MealSuggestions.tsx:46-103 | a branch emits nothing unless its gap exceeds the trigger (10, 15 or 5 g); otherwise its foods are the qualifying table foods that reach the minimum, in table order |
| MealSuggestions.VegetablePicksAre | src/components/MealSuggestions.tsx:106-107 | the two vegetables picked are broccoli and spinach |
| MealSuggestions.VegetableEntries | src/components/MealSuggestions.tsx:107-113 | every picked vegetable is suggested at 100 g, in order |
| MealSuggestions.AllSuggestionsShape | src/components/MealSuggestions.tsx:42-114 | before truncation every entry is in its group's range and the groups come in order: protein, carbs, fats, vegetables |
| MealSuggestions.SuggestionsShape | src/components/MealSuggestions.tsx:116-121 | the shown list is a prefix of the full list with 2 to 6 entries, so the empty-list branch never shows; the whole list is shown when it has at most six entries; group order and ranges are kept |
| MealSuggestions.OnlyVegetables | src/components/MealSuggestions.tsx:46-113 | with every gap at or under its trigger, only broccoli and spinach at 100 g are suggested |
| MealSuggestions.ProteinCandidates | src/components/MealSuggestions.tsx:47-49 | the protein candidates are chicken breast, salmon and tofu |
| MealSuggestions.CarbCandidates | src/components/MealSuggestions.tsx:67-69 | the carb candidates are brown rice, quinoa, sweet potato and oats |
| MealSuggestions.FatCandidates | src/components/MealSuggestions.tsx:87-89 | the fat candidates are avocado, almonds and olive oil |
| MealSuggestions.WorkedExample | src/components/MealSuggestions.tsx:42-116 | targets 2000/100/150/70 against an intake of 500/20/50/10 show chicken, salmon, tofu, brown rice, quinoa and sweet potato, each at 200 g |
| MealBuilder.TotalAppend | src/components/MealBuilder.tsx:34-42 | an empty meal totals zero; adding an item adds exactly its cached nutrition to each field |
| MealBuilder.TotalOrderFree | src/components/MealBuilder.tsx:34-42 | the total does not depend on the order of the items |
| MealBuilder.TotalReadsCachedNutrition | src/components/MealBuilder.tsx:34-42 | the total reads only each item's cached `nutrition`, never the food or the amount |
| MealBuilder.TotalNonNegative | src/components/MealBuilder.tsx:34-42 | items with non-negative nutrition give a non-negative total |
| MealBuilder.ProgressPercentage | src/components/MealBuilder.tsx:44-47 | 0 for a zero target; otherwise the percentage reached, capped at 100 |
| MealBuilder.ProgressPercentageBounds | src/components/MealBuilder.tsx:44-47 | for a positive target and a non-negative intake the percentage lies in [0, 100], and it is 100 exactly when the intake reaches the target |
| MealBuilder.ProgressPercentageMonotone | src/components/MealBuilder.tsx:44-47 | for a positive target, more intake never shows a smaller percentage |
| MealBuilder.ProgressColor | src/components/MealBuilder.tsx:49-54 | with a zero target `getProgressColor` never returns the health colour; it returns yellow exactly when the intake is negative |
| MealBuilder.ProgressColorBands | src/components/MealBuilder.tsx:49-54 | for a positive target `getProgressColor` returns yellow below 80 %, the health colour from 80 % to 100 % inclusive, and red above 100 % |
| MealBuilder.ZeroTargetShowsRed | src/components/MealBuilder.tsx:44-54 | with a zero target and no intake the percentage is 0 while `getProgressColor` returns red |
| Index.WithoutIdSpec | src/pages/Index.tsx:51-54 | remove-by-id keeps exactly the meals with another id, in plan order and with their multiplicities; together with the removed meals it makes up the old plan as a multiset; an id not in the plan changes nothing |
| Index.PlanTotalAppend | src/pages/Index.tsx:61-69 | an empty plan totals zero; a new meal adds exactly its total to each field |
| Index.AddThenRemove | src/pages/Index.tsx:46-54 | adding a meal with a new id and then removing that id restores the plan and its total |
| Index.Session.constructor | src/pages/Index.tsx:37-44 | the session starts with targets 2000/100/150/70 and an empty plan |
| Index.Session.SetTargets | src/pages/Index.tsx:95-98 | replaces the targets and leaves the plan alone |
| Index.Session.AddMeal | src/pages/Index.tsx:46-49 | appends the meal at the end of the plan, keeping the earlier meals and the targets |
| Index.Session.RemoveMeal | src/pages/Index.tsx:51-54 | the new plan is the old one without that id: no remaining meal has the id, it is a subsequence of the old plan, and with the removed meals it makes up the old plan as a multiset |
| Index.Session.ClearPlan | src/pages/Index.tsx:56-59 | empties the plan and keeps the targets |
| Index.AddThenRemoveRestores | src/pages/Index.tsx:46-69 | on a session, adding and then removing a meal with a new id restores the plan, the total and the targets |
| MealPlan.ProgressStatus | src/components/MealPlan.tsx:44-49 | with a zero target the status is never good; it is low exactly when the intake is negative |
| MealPlan.ProgressStatusBands | src/components/MealPlan.tsx:44-49 | for a positive target the status is low below 80 %, good from 80 % to 110 % inclusive, and high above 110 % |
| MealPlan.MealsByTypeSpec | src/components/MealPlan.tsx:69-71 | a section holds exactly the plan's meals of that type, in plan order |
| MealPlan.MealsByTypePartition | src/components/MealPlan.tsx:69-71 | the breakfast, lunch and dinner sections together list every meal of the plan exactly once |
| MealPlan.ProgressMessageSingle | src/components/MealPlan.tsx:207-211 | exactly one of the three message pieces shows for any percentage; "Perfect range!" shows exactly from 80 % to 110 %; "over target" shows exactly above 110 % |
| MealPlan.ShownMessageNeverOver | src/components/MealPlan.tsx:181-210 | because the percentage fed to the message is capped at 100, "over target" never shows |
| MealPlan.HighButPerfect | src/components/MealPlan.tsx:180-210 | above 110 % of a positive target the status icon and bar colour say high while the line says "Perfect range!" |
| MealPlan.IntendedMessageMatchesStatus | src/components/MealPlan.tsx:44-49 | for a positive target, from the uncapped percentage the line agrees with the status in all three bands, and the over-target points are the rounded excess |
| MealGenerator.SplitTargets | src/components/MealGenerator.tsx:42-61 | each field of a meal's share is the target times the ratio, rounded, so a whole number within half a unit of the exact share |
| MealGenerator.SplitAddsUp | src/components/MealGenerator.tsx:38-61 | in every field the three shares (25/35/40 %) add up to the daily target to within 1.5 |
| MealGenerator.OptionsIgnoreTargets | src/components/MealGenerator.tsx:63-191 | the generated options do not depend on the targets at all |
| MealGenerator.BucketsShape | src/components/MealGenerator.tsx:63-191 | breakfast, lunch and dinner each get three meals of their own type |
| MealGenerator.TemplatesConsistent | src/components/MealGenerator.tsx:70-191 | every template's stated total is the field-wise sum of its four food lines |
| MealGenerator.OptionsConsistent | src/components/MealGenerator.tsx:70-191 | every generated meal's total is the sum of its food lines |
| MealGenerator.MealIdsDiffer | src/components/MealGenerator.tsx:73-179 | ids `<type>-<n>-<clock>` with a different type or number differ, whatever the clock reads |
| MealGenerator.IdsDistinct | src/components/MealGenerator.tsx:70-191 | the nine ids of one generation are pairwise distinct, even when every clock read is equal |
| MacroTargets.WithField | src/components/MacroTargets.tsx:47-50 | the object spread replaces one key and copies every other key |
| MacroTargets.HandleInputChange | src/components/MacroTargets.tsx:44-51 | the edited key holds the parsed value, or 0 when the text does not parse; the other keys keep their values |
| MacroTargets.RetypingIsNoChange | src/components/MacroTargets.tsx:44-51 | typing the value a key already holds leaves the targets unchanged |
| MacroTargets.LastEditWins | src/components/MacroTargets.tsx:44-51 | of two edits to one key, only the last counts |
| MacroTargets.EditsCommute | src/components/MacroTargets.tsx:44-51 | edits to two different keys commute |
| MacroTargets.PresetIgnoresPrevious | src/components/MacroTargets.tsx:53-56 | choosing a preset gives the same targets whatever the targets were before, and choosing it again changes nothing |
| MacroTargets.PresetsShape | src/components/MacroTargets.tsx:18-39 | four presets with calorie targets 1500, 2000, 2500 and 3000 and protein targets 120, 100, 150 and 180; every value is positive; the names are distinct; and no preset's macros (4/4/9 kcal per g) carry more energy than its calorie target |
| MacroTargets.PresetThenEdit | src/components/MacroTargets.tsx:44-56 | after a preset, editing one key keeps the preset's other three values |
| FoodSearch.FoodPicker.constructor | src/components/FoodSearch.tsx:14-17 | starts with no query, no results, nothing selected and 100 g |
| FoodSearch.FoodPicker.HandleSearch | src/components/FoodSearch.tsx:21-27 | stores the query and exactly `searchFoods(query)`, the whole table for a blank query; the selection and amount are kept |
| FoodSearch.FoodPicker.HandleFoodSelect | src/components/FoodSearch.tsx:29-33 | selects the food and preloads its common serving as the amount |
| FoodSearch.FoodPicker.SetAmount | src/components/FoodSearch.tsx:105 | the amount becomes `parseFloat(text) \|\| 0` |
| FoodSearch.FoodPicker.HandleAddFood | src/components/FoodSearch.tsx:35-42 | when a food is selected and the amount is positive: hands over exactly that pair, then resets to no selection and 100 g; otherwise hands over nothing and changes nothing |
| FoodSearch.FoodPicker.PreviewNutrition | src/components/FoodSearch.tsx:44 | a preview exists exactly when a food is selected; it is `calculateNutrition` of that food at the current amount, and it carries no fiber |
| FoodSearch.SelectThenAdd | src/components/FoodSearch.tsx:29-42 | selecting any table food and pressing add hands over that food at its common serving, and the panel resets |
| FoodSearch.UnparsableAmountBlocksAdd | src/components/FoodSearch.tsx:35-42 | an amount that does not parse, or is zero or negative, makes add do nothing |

## Left out

- Rendering is not modelled: JSX, styling, icons, `console.log` and React's re-render machinery.
- `getProgressColor` (src/components/MealBuilder.tsx:49-54) is defined but never called. The builder's bars get only the percentage and a fixed class. The model states what the function returns, but no colour of it is shown.
- The generator's `setTimeout` delay and its `isGenerating` flag are not modelled. `createMealSuggestions` is modelled directly.
- `Date.now()` is a parameter `clock: nat -> nat`, where read k of one generation is `clock(k)`.
- Numbers are exact reals, not IEEE-754 doubles. Binary rounding error, and `Infinity`/`NaN` outside the zero-target branches, are not modelled.
- `parseFloat` itself is not modelled. Its result enters as `Option<real>`, with `None` for `NaN`.
- `toLowerCase` changes ASCII letters only.
- `trim()` knows the common ASCII and Unicode spaces, not every Unicode space character.
- A suggestion's reason is a datatype carrying the per-100 g number. The English sentence and its number formatting are left out.
- The recipe dialog (`RecipeModal.tsx`) is not part of this model.
- In the meal builder, `onRemoveItem(index)` and `onClearMeal` belong to the parent component, so they are not part of this model. The builder's total is modelled over any list of items.
- The search panel's `onAddFood` callback is modelled as the value `HandleAddFood` returns.
- `MealGenerator.SplitTargets`: the three per-meal target records are computed but never read by the templates (`MealGenerator.OptionsIgnoreTargets` proves this). The model therefore states the split's accuracy and not any use of it.
- The model follows the code as written even where it behaves unexpectedly:
  - `getProgressColor` and `getProgressStatus` have no zero-target guard;
  - the plan's message line uses the capped percentage (see Findings).

## Findings

| source | as written | input that shows it | evidently intended | confidence | as-written member | corrected member |
|---|---|---|---|---|---|---|
| src/components/MealPlan.tsx:181-210 | the line under each bar is computed from `getProgressPercentage`, which is capped at 100, so its "% over target" branch (more than 110) can never fire | current 150 g against a target of 100 g: the status icon and bar colour say high (150 %) while the line says "Perfect range!" | compute the line from the uncapped percentage, so that it reads "50% over target" and agrees with the status | not executed | MealPlan.HighButPerfect | MealPlan.IntendedMessageMatchesStatus |
