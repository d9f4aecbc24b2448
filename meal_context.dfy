/**
 * The meal ledger held by the app-wide meal provider: a mapping from a day
 * key (such as "Jun 18") to the day's Breakfast, Lunch and Dinner lists,
 * with a copy kept in device storage under the key 'meals'.
 */
module MealContext {
  import opened Wrappers

  /** A serving count in halves: the number 2 stands for one serving. */
  type Halves = nat

  /** The number of servings a count of halves stands for. */
  function Servings(h: Halves): (q: real)
    ensures q * 2.0 == h as real
  {
    h as real / 2.0
  }

  /**
   * A food record as the food search builds it, plus the `quantity` field a
   * logged entry carries. Nutrients are whole numbers (the search rounds them).
   */
  datatype Food = Food(
    id: string,
    name: string,
    calories: int,
    protein: int,
    carbs: int,
    fat: int,
    unit: string,
    image: Option<string>,
    quantity: Option<Halves>)

  /** The three meal slots of a day, named as the home screen names them. */
  datatype Slot = Breakfast | Lunch | Dinner

  function SlotName(slot: Slot): string
  {
    match slot
    case Breakfast => "Breakfast"
    case Lunch => "Lunch"
    case Dinner => "Dinner"
  }

  /**
   * The slot a `type` string designates, if any. Any other string names a
   * property of the day object that holds no list.
   */
  function ParseSlot(name: string): (r: Option<Slot>)
    ensures r.Some? <==> name in {"Breakfast", "Lunch", "Dinner"}
    ensures r.Some? ==> SlotName(r.value) == name
  {
    if name == "Breakfast" then Some(Breakfast)
    else if name == "Lunch" then Some(Lunch)
    else if name == "Dinner" then Some(Dinner)
    else None
  }

  lemma ParseSlotName(slot: Slot)
    ensures ParseSlot(SlotName(slot)) == Some(slot)
  {
  }

  /** One day's entries, each slot in logging order. */
  datatype Day = Day(breakfast: seq<Food>, lunch: seq<Food>, dinner: seq<Food>)
  {
    function Get(slot: Slot): seq<Food>
    {
      match slot
      case Breakfast => breakfast
      case Lunch => lunch
      case Dinner => dinner
    }

    /** This day with the list of `slot` replaced and the other two kept. */
    function With(slot: Slot, items: seq<Food>): (d: Day)
      ensures d.Get(slot) == items
      ensures forall other :: other != slot ==> d.Get(other) == Get(other)
    {
      match slot
      case Breakfast => this.(breakfast := items)
      case Lunch => this.(lunch := items)
      case Dinner => this.(dinner := items)
    }
  }

  /** The day a key that is not yet in the ledger stands for. */
  const EmptyDay := Day([], [], [])

  type Meals = map<string, Day>

  /** The day stored under `date`, or three empty lists when there is none. */
  function DayOf(meals: Meals, date: string): (d: Day)
    ensures date !in meals ==> forall slot :: d.Get(slot) == []
    ensures date in meals ==> d == meals[date]
  {
    if date in meals then meals[date] else EmptyDay
  }

  /** The quantity an add request amounts to: one serving when it gives none. */
  function RequestedQuantity(quantity: Option<Halves>): (h: Halves)
    ensures quantity.None? ==> h == 2
    ensures quantity.Some? ==> h == quantity.value
  {
    match quantity
    case None => 2
    case Some(q) => q
  }

  /** The logged entry: every field of `food`, with `quantity` set by the request. */
  function Entry(food: Food, quantity: Option<Halves>): (e: Food)
    ensures e.quantity == Some(RequestedQuantity(quantity))
    ensures e.(quantity := food.quantity) == food
  {
    food.(quantity := Some(RequestedQuantity(quantity)))
  }

  /**
   * The ledger after appending `entry` to the end of `slot` on `date`,
   * creating the day first when it is missing.
   */
  function Append(meals: Meals, date: string, slot: Slot, entry: Food): (r: Meals)
    ensures r.Keys == meals.Keys + {date}
    ensures forall d :: d in meals && d != date ==> r[d] == meals[d]
    ensures r[date].Get(slot) == DayOf(meals, date).Get(slot) + [entry]
    ensures forall other :: other != slot ==> r[date].Get(other) == DayOf(meals, date).Get(other)
  {
    var day := DayOf(meals, date);
    meals[date := day.With(slot, day.Get(slot) + [entry])]
  }

  /**
   * The state update `addMeal` hands to the state cell: the new ledger, or
   * None when `name` is not a slot, where spreading the missing list throws.
   */
  function Updater(prev: Meals, date: string, name: string, food: Food, quantity: Option<Halves>): (r: Option<Meals>)
    ensures r.Some? <==> ParseSlot(name).Some?
    ensures r.Some? ==> r.value == Append(prev, date, ParseSlot(name).value, Entry(food, quantity))
  {
    match ParseSlot(name)
    case None => None
    case Some(slot) => Some(Append(prev, date, slot, Entry(food, quantity)))
  }

  /** A missing day is created with the new entry alone in its slot and the other two empty. */
  lemma AppendCreatesDay(meals: Meals, date: string, slot: Slot, entry: Food)
    requires date !in meals
    ensures Append(meals, date, slot, entry)[date] == EmptyDay.With(slot, [entry])
  {
  }

  /** Two appends to the same slot keep their order, after the entries already there. */
  lemma AppendOrder(meals: Meals, date: string, slot: Slot, e1: Food, e2: Food)
    ensures Append(Append(meals, date, slot, e1), date, slot, e2)[date].Get(slot)
         == DayOf(meals, date).Get(slot) + [e1, e2]
  {
  }

  /** Appending to one slot does not disturb any other slot of any day. */
  lemma AppendIsolatesSlots(meals: Meals, date: string, slot: Slot, entry: Food, d: string, other: Slot)
    requires d != date || other != slot
    ensures DayOf(Append(meals, date, slot, entry), d).Get(other) == DayOf(meals, d).Get(other)
  {
  }

  /**
   * The meal provider: the `meals` state cell and, as a ghost, the value
   * last written to storage under 'meals' (None when nothing is stored).
   */
  class MealProvider {
    var meals: Meals
    ghost var stored: Option<Meals>

    /** Mounting: the state starts as the empty mapping; storage is whatever it holds. */
    constructor (ghost storage: Option<Meals>)
      ensures meals == map[] && stored == storage
    {
      meals := map[];
      stored := storage;
    }

    /** The start-up effect: `item` is what reading 'meals' from storage returned. */
    method Hydrate(item: Option<Meals>)
      requires item == stored
      modifies this
      ensures item.Some? ==> meals == item.value
      ensures item.None? ==> meals == old(meals)
      ensures stored == old(stored)
    {
      if item.Some? {
        meals := item.value;
      }
    }

    /**
     * `addMeal({date, type, food, quantity})`: replace the state by the
     * updated ledger and write the whole of it to storage. When `name` is not
     * a slot the update throws, and neither the state nor storage changes.
     */
    method AddMeal(date: string, name: string, food: Food, quantity: Option<Halves>) returns (ok: bool)
      modifies this
      ensures ok <==> ParseSlot(name).Some?
      ensures ok ==> meals == Append(old(meals), date, ParseSlot(name).value, Entry(food, quantity))
      ensures ok ==> stored == Some(meals)
      ensures !ok ==> meals == old(meals) && stored == old(stored)
    {
      var updated := Updater(meals, date, name, food, quantity);
      ok := updated.Some?;
      if ok {
        meals := updated.value;
        stored := Some(meals);
      }
    }
  }

  /**
   * A restart after entries were added: a fresh provider hydrated from what
   * the last add stored holds exactly the ledger the old one held.
   */
  method Restart(p: MealProvider, item: Option<Meals>) returns (q: MealProvider)
    requires item == p.stored && p.stored == Some(p.meals)
    ensures fresh(q) && q.meals == p.meals && q.stored == p.stored
  {
    q := new MealProvider(p.stored);
    q.Hydrate(item);
  }
}
