/**
  The weekly meal planner screen: a map from weekday name to the free text of
  the meal planned for it, backed by the store entry "mealPlan".
 */
module MealPlanner {
  import opened Wrappers
  import opened Storage

  /** The seven rows the screen renders, in order. */
  const Days: seq<string> := ["Monday", "Tuesday", "Wednesday", "Thursday", "Friday", "Saturday", "Sunday"]

  /** The store key the whole plan is written under. */
  const StoreKey: string := "mealPlan"

  type Plan = map<string, string>

  /** Only the seven weekday names are keys: what the screen alone ever writes. */
  predicate Weekly(plan: Plan)
  {
    forall d :: d in plan ==> d in Days
  }

  lemma DaysAreDistinct()
    ensures |Days| == 7
    ensures forall i, j :: 0 <= i < j < |Days| ==> Days[i] != Days[j]
  {
  }

  /**
    `{ ...mealPlan, [day]: meal }`: the plan with `day` set to `meal`, whatever
    it held before; every other day keeps its entry. An empty meal is stored,
    not removed.
   */
  function Upsert(plan: Plan, day: string, meal: string): (r: Plan)
    ensures day in r && r[day] == meal
    ensures r.Keys == plan.Keys + {day}
    ensures forall d :: d in plan && d != day ==> r[d] == plan[d]
  {
    plan[day := meal]
  }

  /**
    `mealPlan[day] || ""`: the text shown in a day's input box. It is empty
    both when the day is unset and when it is stored as "".
   */
  function Shown(plan: Plan, day: string): (text: string)
    ensures text == "" <==> day !in plan || plan[day] == ""
    ensures day in plan ==> text == plan[day]
  {
    var entry := if day in plan then Some(plan[day]) else None;
    if entry.Some? && entry.value != "" then entry.value else ""
  }

  /** The texts of the seven input boxes, Monday first. */
  function Rows(plan: Plan): (rows: seq<string>)
    ensures |rows| == |Days|
    ensures forall i :: 0 <= i < |Days| ==> rows[i] == Shown(plan, Days[i])
  {
    seq(|Days|, i requires 0 <= i < |Days| => Shown(plan, Days[i]))
  }

  /** Typing into the box of row i changes that box to the typed text and no other box. */
  lemma EditChangesOneRow(plan: Plan, i: nat, text: string)
    requires i < |Days|
    ensures Rows(Upsert(plan, Days[i], text)) == Rows(plan)[i := text]
  {
  }

  /** Saving under a weekday name keeps a weekly plan weekly. */
  lemma UpsertKeepsWeekly(plan: Plan, i: nat, text: string)
    requires Weekly(plan) && i < |Days|
    ensures Weekly(Upsert(plan, Days[i], text))
  {
  }

  /**
    What `if (saved) setMealPlan(JSON.parse(saved))` extracts from getItem's
    result: the stored plan, or None when nothing is set (null or "") or when
    the stored text is not a plan document.
   */
  function ParsedPlan(saved: Option<Value>): (plan: Option<Plan>)
    ensures plan.Some? <==> Truthy(saved) && saved.value.PlanDoc?
    ensures plan.Some? ==> saved == Some(PlanDoc(plan.value))
  {
    if !Truthy(saved) then None
    else match saved.value
      case PlanDoc(p) => Some(p)
      case _ => None
  }

  /** The plan a freshly mounted screen shows once it has loaded `store`. */
  function Reloaded(store: Store): Plan
  {
    match ParsedPlan(GetItem(store, StoreKey))
    case Some(p) => p
    case None => map[]
  }

  /** Writing a plan with JSON.stringify and reading it back on a restart gives the same plan. */
  lemma SavedPlanReloads(store: Store, plan: Plan)
    ensures Reloaded(store[StoreKey := PlanDoc(plan)]) == plan
  {
  }

  /** The meal planner screen: its `mealPlan` state and the store it persists to. */
  class MealPlannerScreen {
    var mealPlan: Plan
    var store: Store

    /** Mounting the screen: the state starts as `{}`. */
    constructor (persisted: Store)
      ensures mealPlan == map[] && store == persisted
    {
      mealPlan := map[];
      store := persisted;
    }

    /** The plan in memory is what a restart would show. */
    predicate InSync()
      reads this
    {
      Reloaded(store) == mealPlan
    }

    /**
      loadMealPlan: replaces the plan with the saved one only when a saved,
      plan document exists; a failed read, an absent or empty entry and any
      other stored text all leave the current plan in place.
     */
    method LoadMealPlan(readOk: bool)
      modifies this`mealPlan
      ensures store == old(store)
      ensures mealPlan == if readOk && ParsedPlan(GetItem(store, StoreKey)).Some?
                          then ParsedPlan(GetItem(store, StoreKey)).value
                          else old(mealPlan)
    {
      if readOk {
        var saved := GetItem(store, StoreKey);
        var parsed := ParsedPlan(saved);
        if parsed.Some? {
          mealPlan := parsed.value;
        }
      }
    }

    /**
      saveMeal: updates the state first, then writes the whole plan. When the
      write fails the state keeps the new plan and the store the old one.
     */
    method SaveMeal(day: string, meal: string, writeOk: bool)
      modifies this
      ensures mealPlan == Upsert(old(mealPlan), day, meal)
      ensures store == if writeOk then old(store)[StoreKey := PlanDoc(mealPlan)] else old(store)
      ensures writeOk ==> InSync()
    {
      var newPlan := Upsert(mealPlan, day, meal);
      mealPlan := newPlan;
      if writeOk {
        store := store[StoreKey := PlanDoc(newPlan)];
      }
      SavedPlanReloads(old(store), newPlan);
    }

    /** clearPlan: removes the entry, then empties the state; a failed removal changes neither. */
    method ClearPlan(removeOk: bool)
      modifies this
      ensures removeOk ==> store == old(store) - {StoreKey} && mealPlan == map[]
      ensures removeOk ==> StoreKey !in store && InSync()
      ensures !removeOk ==> store == old(store) && mealPlan == old(mealPlan)
    {
      if removeOk {
        store := store - {StoreKey};
        mealPlan := map[];
      }
    }

    /**
      The input box of row i calling `saveMeal(day, text)`: the only caller,
      so the plan only ever gains weekday keys from the screen itself.
     */
    method EditRow(i: nat, text: string, writeOk: bool)
      requires i < |Days|
      modifies this
      ensures mealPlan == Upsert(old(mealPlan), Days[i], text)
      ensures store == if writeOk then old(store)[StoreKey := PlanDoc(mealPlan)] else old(store)
      ensures Rows(mealPlan) == Rows(old(mealPlan))[i := text]
      ensures Weekly(old(mealPlan)) ==> Weekly(mealPlan)
      ensures writeOk ==> InSync()
    {
      EditChangesOneRow(mealPlan, i, text);
      SaveMeal(Days[i], text, writeOk);
    }
  }
}
