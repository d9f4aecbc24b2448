/**
 * The daily summary: the day's entries in slot order, their nutrient totals
 * weighted by each entry's quantity, the calories left under the goal, the
 * progress bar and the goal the user may set.
 */
module SummaryScreen {
  import opened Wrappers
  import opened JsNumber
  import opened MealContext

  /** Four running sums (calories in kcal, the macronutrients in grams). */
  datatype Totals = Totals(calories: real, protein: real, carbs: real, fat: real)

  const Zero := Totals(0.0, 0.0, 0.0, 0.0)

  function Plus(a: Totals, b: Totals): Totals
  {
    Totals(a.calories + b.calories, a.protein + b.protein, a.carbs + b.carbs, a.fat + b.fat)
  }

  /** `f.quantity || 1`: the entry's quantity, or 1 when it is missing or 0. */
  function Multiplier(f: Food): (m: real)
    ensures m > 0.0
    ensures f.quantity.None? ==> m == 1.0
    ensures f.quantity == Some(0) ==> m == 1.0
    ensures f.quantity.Some? && f.quantity.value > 0 ==> m == Servings(f.quantity.value)
  {
    match f.quantity
    case None => 1.0
    case Some(h) => if h == 0 then 1.0 else Servings(h)
  }

  /** What one entry adds to the totals: each nutrient times its multiplier. */
  function Contribution(f: Food): (r: Totals)
    ensures f.quantity.None? ==> r == Totals(f.calories as real, f.protein as real, f.carbs as real, f.fat as real)
  {
    var m := Multiplier(f);
    Totals(f.calories as real * m, f.protein as real * m, f.carbs as real * m, f.fat as real * m)
  }

  /** The day's entries: Breakfast, then Lunch, then Dinner. */
  function AllItems(day: Day): (r: seq<Food>)
    ensures |r| == |day.breakfast| + |day.lunch| + |day.dinner|
    ensures r[..|day.breakfast|] == day.breakfast
    ensures r[|day.breakfast|..|day.breakfast| + |day.lunch|] == day.lunch
    ensures r[|r| - |day.dinner|..] == day.dinner
  {
    day.breakfast + day.lunch + day.dinner
  }

  /** Reference definition of the totals: the sum of the contributions. */
  function Sum(items: seq<Food>): Totals
  {
    if items == [] then Zero else Plus(Contribution(items[0]), Sum(items[1..]))
  }

  lemma PlusAssociative(a: Totals, b: Totals, c: Totals)
    ensures Plus(Plus(a, b), c) == Plus(a, Plus(b, c))
  {
  }

  /** The `reduce` over the entries, from the left, starting at `acc`: `acc` plus their sum. */
  function Reduce(acc: Totals, items: seq<Food>): (r: Totals)
    ensures r == Plus(acc, Sum(items))
    decreases |items|
  {
    if items == [] then
      acc
    else
      var c := Contribution(items[0]);
      PlusAssociative(acc, c, Sum(items[1..]));
      Reduce(Plus(acc, c), items[1..])
  }

  lemma {:induction false} SumConcat(s: seq<Food>, t: seq<Food>)
    ensures Sum(s + t) == Plus(Sum(s), Sum(t))
  {
    if s == [] {
      assert s + t == t;
      assert Plus(Zero, Sum(t)) == Sum(t);
    } else {
      var c := Contribution(s[0]);
      assert (s + t)[0] == s[0];
      assert (s + t)[1..] == s[1..] + t;
      SumConcat(s[1..], t);
      PlusAssociative(c, Sum(s[1..]), Sum(t));
    }
  }

  /** The totals of `date`; a day that is not in the ledger reads as empty. */
  function DayTotals(meals: Meals, date: string): (r: Totals)
    ensures date !in meals ==> r == Zero
  {
    Reduce(Zero, AllItems(DayOf(meals, date)))
  }

  /** The totals are the sum of the contributions of the day's entries. */
  lemma DayTotalsIsSum(meals: Meals, date: string)
    ensures DayTotals(meals, date) == Sum(AllItems(DayOf(meals, date)))
  {
  }

  lemma MissingDayIsEmpty(meals: Meals, date: string)
    requires date !in meals
    ensures AllItems(DayOf(meals, date)) == []
    ensures DayTotals(meals, date) == Zero
  {
  }

  /** The three slots' totals added, Breakfast first. */
  function SlotSums(day: Day): Totals
  {
    Plus(Plus(Sum(day.breakfast), Sum(day.lunch)), Sum(day.dinner))
  }

  lemma SumAllItems(day: Day)
    ensures Sum(AllItems(day)) == SlotSums(day)
  {
    SumConcat(day.breakfast, day.lunch);
    SumConcat(day.breakfast + day.lunch, day.dinner);
  }

  lemma SumAppendOne(items: seq<Food>, entry: Food)
    ensures Sum(items + [entry]) == Plus(Sum(items), Contribution(entry))
  {
    SumConcat(items, [entry]);
    assert [entry][1..] == [];
  }

  /** Adding `c` to one of three totals and then summing is adding `c` to their sum. */
  lemma PlusIntoOne(x: Totals, y: Totals, z: Totals, c: Totals)
    ensures Plus(Plus(Plus(x, c), y), z) == Plus(Plus(Plus(x, y), z), c)
    ensures Plus(Plus(x, Plus(y, c)), z) == Plus(Plus(Plus(x, y), z), c)
    ensures Plus(Plus(x, y), Plus(z, c)) == Plus(Plus(Plus(x, y), z), c)
  {
  }

  /** Appending to one slot of a day raises the slots' totals by the entry's contribution. */
  lemma SumAfterAppend(day: Day, slot: Slot, entry: Food)
    ensures SlotSums(day.With(slot, day.Get(slot) + [entry])) == Plus(SlotSums(day), Contribution(entry))
  {
    var b, l, d := day.breakfast, day.lunch, day.dinner;
    PlusIntoOne(Sum(b), Sum(l), Sum(d), Contribution(entry));
    match slot
    case Breakfast =>
      assert day.With(slot, day.Get(slot) + [entry]) == Day(b + [entry], l, d);
      SumAppendOne(b, entry);
    case Lunch =>
      assert day.With(slot, day.Get(slot) + [entry]) == Day(b, l + [entry], d);
      SumAppendOne(l, entry);
    case Dinner =>
      assert day.With(slot, day.Get(slot) + [entry]) == Day(b, l, d + [entry]);
      SumAppendOne(d, entry);
  }

  /** Adding an entry to a day raises that day's totals by exactly the entry's contribution. */
  lemma AppendRaisesTotals(meals: Meals, date: string, slot: Slot, entry: Food)
    ensures DayTotals(Append(meals, date, slot, entry), date)
         == Plus(DayTotals(meals, date), Contribution(entry))
  {
    var before := DayOf(meals, date);
    var after := before.With(slot, before.Get(slot) + [entry]);
    assert DayOf(Append(meals, date, slot, entry), date) == after;
    DayTotalsIsSum(meals, date);
    DayTotalsIsSum(Append(meals, date, slot, entry), date);
    SumAllItems(before);
    SumAllItems(after);
    SumAfterAppend(before, slot, entry);
  }

  /** Adding to one day leaves every other day's totals as they were. */
  lemma AppendKeepsOtherDays(meals: Meals, date: string, slot: Slot, entry: Food, other: string)
    requires other != date
    ensures DayTotals(Append(meals, date, slot, entry), other) == DayTotals(meals, other)
  {
    assert DayOf(Append(meals, date, slot, entry), other) == DayOf(meals, other);
  }

  /**
   * A day with 100 kcal, 5 g protein, 10 g carbs, 2 g fat twice at
   * breakfast and 300 kcal, 20 g, 30 g, 10 g once at lunch totals
   * 500 kcal, 30 g protein, 50 g carbs and 14 g fat.
   */
  lemma ExampleDay(meals: Meals, date: string)
    requires date in meals
    requires meals[date] == Day(
      [Food("a", "A", 100, 5, 10, 2, "100g", None, Some(4))],
      [Food("b", "B", 300, 20, 30, 10, "100g", None, Some(2))],
      [])
    ensures DayTotals(meals, date) == Totals(500.0, 30.0, 50.0, 14.0)
  {
    var day := meals[date];
    var x, y := day.breakfast[0], day.lunch[0];
    assert AllItems(day) == [x, y];
    assert Multiplier(x) == 2.0 && Multiplier(y) == 1.0;
    assert Contribution(x) == Totals(200.0, 10.0, 20.0, 4.0);
    assert Contribution(y) == Totals(300.0, 20.0, 30.0, 10.0);
    assert [x, y][1..] == [y];
    assert Reduce(Zero, [x, y]) == Reduce(Contribution(x), [y]);
    assert Reduce(Contribution(x), [y]) == Reduce(Plus(Contribution(x), Contribution(y)), []);
  }

  /** `Math.max(0, goal - eaten)`: the calories left under the goal. */
  function Remaining(goal: int, eaten: real): (r: real)
    ensures r >= 0.0
    ensures eaten <= goal as real ==> r == goal as real - eaten
    ensures eaten >= goal as real ==> r == 0.0
  {
    if goal as real - eaten > 0.0 then goal as real - eaten else 0.0
  }

  /** The width of the progress bar in percent: `Math.min(eaten / goal * 100, 100)`. */
  function ProgressPercent(eaten: real, goal: int): (r: real)
    requires goal > 0
    ensures r <= 100.0
    ensures r == 100.0 <==> eaten >= goal as real
    ensures eaten < goal as real ==> r * goal as real == eaten * 100.0
    ensures eaten >= 0.0 ==> r >= 0.0
  {
    var p := eaten / goal as real * 100.0;
    if p < 100.0 then p else 100.0
  }

  /** The goal the screen starts with. */
  const DefaultGoal := 2000

  /** The goal a prompt answer sets: the integer `parseInt` reads, when it is positive. */
  function AcceptedGoal(value: string): (r: Option<int>)
    ensures r.Some? ==> r.value > 0 && ParseInt(value) == r
    ensures r.None? ==> ParseInt(value).None? || ParseInt(value).value <= 0
  {
    match ParseInt(value)
    case Some(n) => if n > 0 then Some(n) else None
    case None => None
  }

  /** Confirming the prompt's pre-filled text, `String(goal)`, keeps the goal. */
  lemma DefaultTextKeepsGoal(goal: int)
    requires goal > 0
    ensures AcceptedGoal(DecimalString(goal)) == Some(goal)
  {
    ParseIntDecimalString(goal, []);
    assert DecimalString(goal) + [] == DecimalString(goal);
  }

  /** An answer that does not start, after blanks, with a sign or a digit is refused. */
  lemma NonNumericRefused(value: string)
    requires var t := TrimStart(value); t == [] || (!IsDigit(t[0]) && t[0] != '-' && t[0] != '+')
    ensures AcceptedGoal(value).None?
  {
  }

  /** Zero is refused. */
  lemma ZeroRefused(rest: string)
    requires rest == [] || !IsDigit(rest[0])
    ensures AcceptedGoal(DecimalString(0) + rest).None?
  {
    ParseIntDecimalString(0, rest);
  }

  /** A negative number is refused. */
  lemma NegativeRefused(n: nat, rest: string)
    requires rest == [] || !IsDigit(rest[0])
    ensures AcceptedGoal(['-'] + DecimalString(n) + rest).None?
  {
    ParseIntNegative(n, rest);
  }

  /** Blanks before a positive number and text after it do not stop it from becoming the goal. */
  lemma PaddedAnswerAccepted(pad: string, n: nat, rest: string)
    requires AllWhiteSpace(pad) && n > 0
    requires rest == [] || !IsDigit(rest[0])
    ensures AcceptedGoal(pad + DecimalString(n) + rest) == Some(n)
  {
    assert pad + DecimalString(n) + rest == pad + (DecimalString(n) + rest);
    ParseIntSkipsPadding(pad, DecimalString(n) + rest);
    ParseIntDecimalString(n, rest);
  }

  /** The calorie goal held as state of the summary screen; it is always positive. */
  class GoalSetting {
    var goal: int

    ghost predicate Valid()
      reads this
    {
      goal > 0
    }

    constructor ()
      ensures Valid() && goal == DefaultGoal
    {
      goal := DefaultGoal;
    }

    /**
     * The prompt's callback for answer `value`: a positive parsed integer
     * becomes the goal; anything else is refused (the screen shows an error)
     * and the goal stays.
     */
    method PromptGoal(value: string) returns (accepted: bool)
      requires Valid()
      modifies this
      ensures Valid()
      ensures accepted <==> AcceptedGoal(value).Some?
      ensures accepted ==> goal == AcceptedGoal(value).value
      ensures !accepted ==> goal == old(goal)
    {
      var parsed := AcceptedGoal(value);
      accepted := parsed.Some?;
      if accepted {
        goal := parsed.value;
      }
    }
  }

  /**
   * The summary sends an entry back to the detail screen with meal
   * `item.mealType || 'Unknown'`; logged entries carry no meal type, so
   * adding from there names no slot and the ledger update throws.
   */
  lemma ReAddFromSummaryFails(meals: Meals, date: string, food: Food, quantity: Option<Halves>)
    ensures Updater(meals, date, "Unknown", food, quantity).None?
  {
  }
}
