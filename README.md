# NutriTrack meal ledger, modelled in Dafny

NutriTrack is a mobile nutrition tracker. This project models its one
piece of client-side state and the arithmetic around it:

- **The meal ledger** (`MealContext`). The meal provider holds `meals`, a
  mapping from a day key such as `"Jun 18"` to that day's `Breakfast`,
  `Lunch` and `Dinner` lists. `addMeal` creates a missing day on first
  use and appends one entry to the end of one slot. It copies every other
  slot and day unchanged and writes the whole mapping to storage under
  `'meals'`. At start-up the provider hydrates from that stored value, if
  there is one. The class `MealProvider` has the `meals` field and a ghost
  `stored` field standing for storage. `AddMeal` assigns the map built by
  the pure `Append`.
- **The daily summary** (`SummaryScreen`). It joins the day's three slots
  in order and folds them into calorie, protein, carb and fat totals. Each
  entry is weighted by `quantity || 1`. From the totals it computes
  `max(0, goal - eaten)` and the clamped progress percentage. The calorie
  goal starts at 2000. A prompt changes it only when `parseInt` reads a
  positive integer from the answer.
- **The food detail screen** (`NutritionCard`). A quantity stepper moves
  in half servings and is clamped at half a serving. Nutrients are shown
  as `Math.round(value * quantity)`. The entry it hands to `addMeal`
  carries those already-scaled nutrients together with the quantity.
- **JavaScript number built-ins** (`JsNumber`): `Math.round`,
  `parseInt(value, 10)` and `String(n)`.

Numbers are exact. A quantity is a count of halves (`2` is one serving),
nutrients are integers, and totals are `real`. `Math.round(x)` is
`(x + 0.5).Floor`, which is JavaScript's rule: ties go towards +infinity.

Three behaviours of the code are kept:

- **Double scaling.** The detail screen stores nutrients already multiplied
  by the quantity, and the summary multiplies by the quantity again. An
  entry logged at quantity `q` therefore counts its per-serving value
  scaled by `q` twice, `round(v * q) * q`. For example, 100 kcal at two
  servings is stored as 200 and counted as 400
  (`NutritionCard.DoubleScaling`, `NutritionCard.DoubleScalingExample`).
- **A `type` that is not a slot** makes `addMeal`'s state update throw:
  spreading the missing list fails. The throw is modelled as a failed
  update that changes neither the state nor storage (see "## Left out"
  for what the app does instead).
- **Re-adding from the summary fails.** The summary passes
  `item.mealType || 'Unknown'` as the meal when it opens the detail screen.
  Stored entries carry no meal type, so that add always takes the failing
  path (`SummaryScreen.ReAddFromSummaryFails`). The summary's "+" button
  opens the food search without a meal, so an add made from there reaches
  the same throw.

## Model

| member | source | states |
|---|---|---|
| `MealContext.ParseSlot` | NutriTrack/screens/HomeScreen.js:29 | a `type` designates a slot exactly when it is `Breakfast`, `Lunch` or `Dinner`, and the slot's name is that string |
| `MealContext.ParseSlotName` | NutriTrack/screens/HomeScreen.js:29 | every slot name reads back as its slot |
| `MealContext.Day.With` | NutriTrack/context/MealContext.js:25-28 | replacing one slot's list leaves the other two slots of the day as they were |
| `MealContext.DayOf` | NutriTrack/context/MealContext.js:22 | a day key that is missing reads as three empty lists; a present one reads as its stored day |
| `MealContext.RequestedQuantity` | NutriTrack/context/MealContext.js:20 | an add request without a quantity means one serving; otherwise its own quantity |
| `MealContext.Entry` | NutriTrack/context/MealContext.js:27 | the logged entry has every field of `food`, with `quantity` set by the request, overriding any quantity `food` had |
| `MealContext.Append` | NutriTrack/context/MealContext.js:22-28 | keys gain at most `date` and lose none; every other day is unchanged; the slot grows by the entry at its end; the other two slots are unchanged |
| `MealContext.Updater` | NutriTrack/context/MealContext.js:21-33 | the update succeeds exactly when `type` is a slot, and then yields `Append` of the logged entry |
| `MealContext.AppendCreatesDay` | NutriTrack/context/MealContext.js:22 | adding to a missing day creates it with the entry alone in its slot and the other two slots empty |
| `MealContext.AppendOrder` | NutriTrack/context/MealContext.js:27 | two appends to one slot leave `old ++ [e1, e2]`, in that order |
| `MealContext.AppendIsolatesSlots` | NutriTrack/context/MealContext.js:23-28 | every (day, slot) pair other than the target reads the same after the append |
| `MealContext.MealProvider.constructor` | NutriTrack/context/MealContext.js:10 | the provider starts with the empty mapping |
| `MealContext.MealProvider.Hydrate` | NutriTrack/context/MealContext.js:13-17 | a stored value replaces the mapping wholesale; with nothing stored the mapping stays as it was |
| `MealContext.MealProvider.AddMeal` | NutriTrack/context/MealContext.js:20-34 | on a slot `type`, the mapping becomes `Append` of the logged entry and storage holds the whole new mapping; otherwise neither changes |
| `MealContext.Restart` | NutriTrack/context/MealContext.js:10-17 | a fresh provider hydrated from what the last add stored holds the same mapping |
| `JsNumber.Round` | NutriTrack/screens/NutritionCard.js:31 | `Math.round` gives the integer within half of `x`, a tie going up |
| `JsNumber.TrimStart` | NutriTrack/screens/SummaryScreen.js:48 | `parseInt` skips leading white space: the result is a suffix that does not start with white space, every dropped character is white space, and text not starting with white space is kept whole |
| `JsNumber.DigitPrefix` | NutriTrack/screens/SummaryScreen.js:48 | the digits `parseInt` reads are the longest all-digit prefix |
| `JsNumber.Unsigned` | NutriTrack/screens/SummaryScreen.js:48 | one leading `+` or `-` is dropped before the digits are read; otherwise the text is kept |
| `JsNumber.ParseSigned` | NutriTrack/screens/SummaryScreen.js:48 | the number is NaN exactly when no digit follows the optional sign; otherwise it is the digits' value, negated after a `-` |
| `JsNumber.ParseInt` | NutriTrack/screens/SummaryScreen.js:48 | blank text parses to NaN |
| `JsNumber.DecimalString` | NutriTrack/screens/SummaryScreen.js:56 | `String(n)` is a non-empty string of digits with no leading zero: it starts with `0` only for `n = 0`, when it is the single digit |
| `JsNumber.DecimalStringValue` | NutriTrack/screens/SummaryScreen.js:56 | the digits of `String(n)` have the value `n` |
| `JsNumber.DigitPrefixStops` | NutriTrack/screens/SummaryScreen.js:48 | reading digits stops at the first non-digit |
| `JsNumber.ParseIntSkipsWhiteSpace` | NutriTrack/screens/SummaryScreen.js:48 | a leading white-space character does not change what `parseInt` reads |
| `JsNumber.ParseIntSkipsPadding` | NutriTrack/screens/SummaryScreen.js:48 | any run of white space before the text does not change what `parseInt` reads |
| `JsNumber.ParseIntDecimalString` | NutriTrack/screens/SummaryScreen.js:48-56 | `parseInt(String(n) + rest)` is `n` when `rest` does not start with a digit |
| `JsNumber.ParseIntUntrimmed` | NutriTrack/screens/SummaryScreen.js:48 | text that does not start with white space is read as it stands |
| `JsNumber.ParseIntMinus` | NutriTrack/screens/SummaryScreen.js:48 | after a leading `-`, the number read is the negated value of the digits that follow |
| `JsNumber.ParseIntMinusDigits` | NutriTrack/screens/SummaryScreen.js:48 | `-`, then digits, then text not starting with a digit, reads as the negated digits |
| `JsNumber.ParseIntNegative` | NutriTrack/screens/SummaryScreen.js:48 | `parseInt("-" + String(n) + rest)` is `-n` when `rest` does not start with a digit |
| `MealContext.Servings` | NutriTrack/screens/NutritionCard.js:28 | a count of halves is that many half servings: twice the servings is the count |
| `SummaryScreen.Multiplier` | NutriTrack/screens/SummaryScreen.js:32-35 | the summary weight, the quantity or 1 when it is falsy, is positive: 1 when the quantity is missing or 0 (both falsy), the quantity in servings otherwise |
| `SummaryScreen.Contribution` | NutriTrack/screens/SummaryScreen.js:32-35 | an entry weighs its nutrients by `Multiplier`; with no quantity it adds its four nutrients as they are |
| `SummaryScreen.AllItems` | NutriTrack/screens/SummaryScreen.js:27 | the day's items number the three slots' lengths added, with Breakfast's list first, Lunch's list next in its own order, and Dinner's last |
| `SummaryScreen.Reduce` | NutriTrack/screens/SummaryScreen.js:30-38 | the left `reduce` from `acc` equals `acc` plus `Sum`, the reference sum of the entries' contributions |
| `SummaryScreen.SumConcat` | NutriTrack/screens/SummaryScreen.js:27-38 | the totals of a concatenation are the sum of the parts' totals |
| `SummaryScreen.PlusAssociative` | NutriTrack/screens/SummaryScreen.js:30-38 | adding totals is associative, so the fold's grouping does not matter |
| `SummaryScreen.DayTotals` | NutriTrack/screens/SummaryScreen.js:26-38 | the reduce over the day's items from zero; a date not in the ledger totals zero (its meaning as a sum is `DayTotalsIsSum`) |
| `SummaryScreen.DayTotalsIsSum` | NutriTrack/screens/SummaryScreen.js:26-38 | a day's totals are the sum of the contributions of Breakfast ++ Lunch ++ Dinner |
| `SummaryScreen.SumAllItems` | NutriTrack/screens/SummaryScreen.js:27 | the totals of all items are the three slots' totals added |
| `SummaryScreen.SumAppendOne` | NutriTrack/screens/SummaryScreen.js:30-38 | an entry at the end of a list adds exactly its contribution |
| `SummaryScreen.PlusIntoOne` | NutriTrack/screens/SummaryScreen.js:30-38 | adding one contribution into any one of three totals before adding them up is the same as adding it last |
| `SummaryScreen.SumAfterAppend` | NutriTrack/screens/SummaryScreen.js:27-38 | appending to any one slot raises the three slots' totals, added up, by exactly the entry's contribution |
| `SummaryScreen.MissingDayIsEmpty` | NutriTrack/screens/SummaryScreen.js:26-38 | a missing day has no items and all four totals 0 |
| `SummaryScreen.AppendRaisesTotals` | NutriTrack/screens/SummaryScreen.js:27-38 | after `addMeal`, the day's totals rise by exactly the new entry's contribution, whatever slot it went to |
| `SummaryScreen.AppendKeepsOtherDays` | NutriTrack/screens/SummaryScreen.js:26 | adding to one day leaves every other day's totals unchanged |
| `SummaryScreen.ExampleDay` | NutriTrack/screens/SummaryScreen.js:30-38 | 100/5/10/2 twice plus 300/20/30/10 once totals 500 kcal, 30 g, 50 g, 14 g |
| `SummaryScreen.Remaining` | NutriTrack/screens/SummaryScreen.js:40-41 | the remaining calories are never negative; they are `goal - eaten` when `eaten <= goal` and 0 when `eaten >= goal` |
| `SummaryScreen.ProgressPercent` | NutriTrack/screens/SummaryScreen.js:97 | the bar is at most 100 %; it is full exactly when `eaten >= goal`; below that it is `eaten / goal * 100`; it is non-negative for non-negative intake |
| `SummaryScreen.AcceptedGoal` | NutriTrack/screens/SummaryScreen.js:48-53 | an answer sets the goal only to the integer `parseInt` reads, and only when that integer is positive |
| `SummaryScreen.DefaultTextKeepsGoal` | NutriTrack/screens/SummaryScreen.js:56 | confirming the pre-filled `String(goal)` sets the same goal again |
| `SummaryScreen.NonNumericRefused` | NutriTrack/screens/SummaryScreen.js:48-52 | an answer that does not start, after blanks, with a sign or a digit is refused |
| `SummaryScreen.ZeroRefused` | NutriTrack/screens/SummaryScreen.js:49 | `0` is refused, whatever non-digit text follows |
| `SummaryScreen.NegativeRefused` | NutriTrack/screens/SummaryScreen.js:49 | a negative number is refused |
| `SummaryScreen.PaddedAnswerAccepted` | NutriTrack/screens/SummaryScreen.js:48-50 | a positive number with any run of white space before it and non-digit text after it becomes the goal |
| `SummaryScreen.GoalSetting.constructor` | NutriTrack/screens/SummaryScreen.js:23 | the goal starts at 2000 |
| `SummaryScreen.GoalSetting.PromptGoal` | NutriTrack/screens/SummaryScreen.js:47-53 | an accepted answer sets the goal; a refused one leaves it unchanged; the goal stays positive |
| `SummaryScreen.ReAddFromSummaryFails` | NutriTrack/screens/SummaryScreen.js:64 | adding with meal `'Unknown'`, which the summary passes, always takes the failing update path |
| `NutritionCard.Stepped` | NutriTrack/screens/NutritionCard.js:26-29 | the quantity after a step is at least half a serving; +0.5 adds exactly one half; -0.5 takes one half off, but never below half a serving |
| `NutritionCard.AdjustedValue` | NutriTrack/screens/NutritionCard.js:31 | the adjusted value is within half of `value * quantity`; it equals `value` at one serving; it is non-negative for non-negative values |
| `NutritionCard.Scaled` | NutriTrack/screens/NutritionCard.js:34 | the four nutrients become their adjusted values; every other field is unchanged |
| `NutritionCard.LoggedEntry` | NutriTrack/screens/NutritionCard.js:34 | the entry `addMeal` stores from the detail screen: quantity `h`, the four nutrients adjusted to `h`, every other field of the food as it was |
| `NutritionCard.DoubleScaling` | NutriTrack/screens/NutritionCard.js:34 | through the summary, an entry logged at quantity `q` counts `round(v * q) * q` for each of its four nutrients `v`: calories, protein, carbs and fat |
| `NutritionCard.DoubleScalingExample` | NutriTrack/screens/NutritionCard.js:34 | 100 kcal at two servings is stored as 200 and counted as 400 |
| `NutritionCard.AddRaisesEaten` | NutriTrack/screens/NutritionCard.js:33-36 | adding from the detail screen raises the day's calories by the doubly scaled amount |
| `NutritionCard.NutritionDetail.constructor` | NutriTrack/screens/NutritionCard.js:14-16 | the screen opens at quantity 1 with the route's food, date and meal |
| `NutritionCard.NutritionDetail.AdjustQuantity` | NutriTrack/screens/NutritionCard.js:26-29 | the state becomes the stepped quantity, which stays at least half a serving |
| `NutritionCard.NutritionDetail.OnAddMeal` | NutriTrack/screens/NutritionCard.js:18-36 | with a food, it adds the scaled food at the current quantity to the route's date and meal; without one, nothing is added |

## Left out

- Food search (NutriTrack/screens/HomeScreen.js, NutriTrack/screens/addMeal.js): network fetches, the 500 ms debounce, the floating-point kJ to kcal division by 4.184 and the date list built from the clock and locale. Only the shape of the food record they produce is kept, as `MealContext.Food`.
- The chat screen (NutriTrack/screens/AIChat.js): a language-model HTTP call with a fallback reply.
- Navigation wiring (NutriTrack/App.js), history rendering (NutriTrack/screens/HistoryList.js), every style sheet and all JSX rendering, and `navigation.goBack()` after an add.
- React scheduling: the state updater is applied at once. An add made before hydration completes is overwritten in memory by the hydrated mapping. That add has also written to storage a mapping built from the empty one, with only its own entry (NutriTrack/context/MealContext.js:22-31), so the stored history is replaced. Neither effect of that ordering is modelled.
- Storage asynchrony and storage failures: the write is a synchronous assignment to the ghost `stored`.
- JSON serialisation is identity on the mapping. A stored value that fails to parse, `JSON.parse` throwing at start-up, is not modelled.
- MealContext.MealProvider.Hydrate: the stored value is always a well-formed mapping of three-slot days. Hand-written storage with days missing a slot or with extra keys is not modelled.
- `Alert.prompt` and the error alert are not modelled. `PromptGoal` returns `false` where the screen would show the error.
- Floating point: JavaScript numbers are doubles. The model uses exact integers and reals, so `parseInt` of digit strings beyond 2^53, NaN quantities and rounding error in `value * quantity` are not modelled.
- MealContext.Food has a fixed set of fields (id, name, four nutrients, unit, image, quantity). Other fields a food object may carry, such as the `mealType` the summary adds for display, are not modelled. The display decoration itself (NutriTrack/screens/SummaryScreen.js:129) is kept only through `SummaryScreen.ReAddFromSummaryFails`.
- MealContext.MealProvider.AddMeal: the throw on a `type` that is not a slot is not caught. It happens in the state updater of the provider at the root of the app (NutriTrack/App.js:19), so the render fails and the app ends with a fatal error. The model instead returns `false` and goes on with the mapping and storage unchanged; only the latter matches the app, since the write to storage is never reached.
- MealContext.MealProvider.AddMeal: a quantity is a count of halves. A caller passing a quantity that is not a multiple of 0.5 cannot be represented; the detail screen never does this.
- Day-key collisions across years: day keys are opaque strings.
