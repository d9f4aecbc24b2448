/**
 * The food detail screen: a serving quantity stepped in halves and clamped
 * at half a serving, nutrients scaled by it and rounded, and the entry it
 * hands to the meal provider.
 */
module NutritionCard {
  import opened Wrappers
  import opened JsNumber
  import opened MealContext
  import SummaryScreen

  /**
   * `adjustQuantity(change)` from quantity `h`: `Math.max(0.5, quantity + change)`,
   * then rounded to the nearest half. The result is a count of halves.
   */
  function Stepped(h: Halves, change: real): (r: Halves)
    ensures r >= 1
    ensures change == 0.5 ==> r == h + 1
    ensures change == -0.5 ==> r == if h >= 2 then h - 1 else 1
  {
    var next := Servings(h) + change;
    var clamped := if next > 0.5 then next else 0.5;
    Round(clamped * 2.0)
  }

  /** `getAdjustedValue(value)`: the nutrient for `h` halves, `Math.round(value * quantity)`. */
  function AdjustedValue(value: int, h: Halves): (r: int)
    ensures r as real - 0.5 <= value as real * Servings(h) < r as real + 0.5
    ensures h == 2 ==> r == value
    ensures value >= 0 ==> r >= 0
  {
    Round(value as real * Servings(h))
  }

  /**
   * The food passed to `addMeal`: the four nutrients replaced by their
   * adjusted values; every other field as it was.
   */
  function Scaled(food: Food, h: Halves): (r: Food)
    ensures r.calories == AdjustedValue(food.calories, h) && r.protein == AdjustedValue(food.protein, h)
    ensures r.carbs == AdjustedValue(food.carbs, h) && r.fat == AdjustedValue(food.fat, h)
    ensures r.(calories := food.calories, protein := food.protein, carbs := food.carbs, fat := food.fat) == food
  {
    food.(calories := AdjustedValue(food.calories, h), protein := AdjustedValue(food.protein, h),
          carbs := AdjustedValue(food.carbs, h), fat := AdjustedValue(food.fat, h))
  }

  /** The entry the ledger records for `food` added at `h` halves. */
  function LoggedEntry(food: Food, h: Halves): (e: Food)
    ensures e.quantity == Some(h)
    ensures e.calories == AdjustedValue(food.calories, h) && e.protein == AdjustedValue(food.protein, h)
    ensures e.carbs == AdjustedValue(food.carbs, h) && e.fat == AdjustedValue(food.fat, h)
    ensures e.(calories := food.calories, protein := food.protein, carbs := food.carbs, fat := food.fat, quantity := food.quantity) == food
  {
    Entry(Scaled(food, h), Some(h))
  }

  /**
   * The summary weights the already scaled nutrients by the quantity a
   * second time: for each of the four nutrients `v`, a logged entry counts
   * `round(v * q) * q`, not `v * q`.
   */
  lemma DoubleScaling(food: Food, h: Halves)
    requires h >= 1
    ensures SummaryScreen.Contribution(LoggedEntry(food, h))
         == SummaryScreen.Totals(AdjustedValue(food.calories, h) as real * Servings(h),
                                 AdjustedValue(food.protein, h) as real * Servings(h),
                                 AdjustedValue(food.carbs, h) as real * Servings(h),
                                 AdjustedValue(food.fat, h) as real * Servings(h))
  {
  }

  /** 100 kcal at two servings is logged as 200 kcal and counted as 400. */
  lemma DoubleScalingExample(food: Food)
    requires food.calories == 100
    ensures LoggedEntry(food, 4).calories == 200
    ensures SummaryScreen.Contribution(LoggedEntry(food, 4)).calories == 400.0
  {
  }

  /** Adding from the detail screen raises the day's calories by the doubly scaled amount. */
  lemma AddRaisesEaten(meals: Meals, date: string, slot: Slot, food: Food, h: Halves)
    requires h >= 1
    ensures SummaryScreen.DayTotals(Append(meals, date, slot, LoggedEntry(food, h)), date).calories
         == SummaryScreen.DayTotals(meals, date).calories + AdjustedValue(food.calories, h) as real * Servings(h)
  {
    SummaryScreen.AppendRaisesTotals(meals, date, slot, LoggedEntry(food, h));
    DoubleScaling(food, h);
  }

  /**
   * The detail screen for the route's `food`, `date` and `meal`; `quantity`
   * is its state cell, in halves.
   */
  class NutritionDetail {
    const food: Option<Food>
    const date: string
    const meal: string
    var quantity: Halves

    ghost predicate Valid()
      reads this
    {
      quantity >= 1
    }

    /** The screen opens at one serving. */
    constructor (food: Option<Food>, date: string, meal: string)
      ensures Valid()
      ensures this.food == food && this.date == date && this.meal == meal
      ensures quantity == 2
    {
      this.food := food;
      this.date := date;
      this.meal := meal;
      quantity := 2;
    }

    /** The two buttons: `change` is -0.5 for the minus button and 0.5 for the plus button. */
    method AdjustQuantity(change: real)
      requires Valid()
      modifies this
      ensures Valid()
      ensures quantity == Stepped(old(quantity), change)
    {
      quantity := Stepped(quantity, change);
    }

    /**
     * "Add to Meal": hand the scaled food and the quantity to `addMeal`.
     * Without a food the screen shows no button, so nothing is added.
     */
    method OnAddMeal(provider: MealProvider) returns (ok: bool)
      requires Valid()
      modifies provider
      ensures food.None? ==> !ok
      ensures food.Some? ==> (ok <==> ParseSlot(meal).Some?)
      ensures ok ==> provider.meals == Append(old(provider.meals), date, ParseSlot(meal).value, LoggedEntry(food.value, quantity))
      ensures ok ==> provider.stored == Some(provider.meals)
      ensures !ok ==> provider.meals == old(provider.meals) && provider.stored == old(provider.stored)
    {
      ok := false;
      if food.Some? {
        ok := provider.AddMeal(date, meal, Scaled(food.value, quantity), Some(quantity));
      }
    }
  }
}
