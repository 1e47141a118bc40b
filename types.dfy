/** The wizard's data model (types.ts): meals, day plans as ordered objects,
    plans, the image cache and the configuration form. */
module Types {

  datatype Option<+T> = None | Some(value: T)

  /** An ingredients or instructions field: either an array of lines or one
      newline-separated string. */
  datatype TextList = ListForm(items: seq<string>) | StringForm(text: string)

  datatype Meal = Meal(
    name: string,
    description: string,
    calories: int,
    ingredients: TextList,
    instructions: TextList,
    cookTime: Option<string>)

  /** One slot of a day: the empty record `{}` or a meal. */
  datatype Slot = Empty | Filled(meal: Meal)

  /** A day plan is a JavaScript object from meal-type label to slot.  `keys`
      records the insertion order of its properties, which is the order in
      which `Object.values` lists them. */
  datatype DayPlan = DayPlan(keys: seq<string>, slots: map<string, Slot>)

  type Plan = seq<DayPlan>

  /** Cache key to image payload or one of the two sentinels below. */
  type ImageCache = map<string, string>

  const LoadingEntry: string := "loading"
  const FailedEntry: string := "failed"

  datatype Mode = Ai | Manual

  datatype ConfigData = ConfigData(
    clientName: string,
    planName: string,
    objective: string,
    dietStyle: string,
    days: int,
    meals: int,
    calories: int,
    restrictions: string,
    mode: Mode)

  const EmptyDay: DayPlan := DayPlan([], map[])

  /** No label occurs twice. */
  predicate Distinct(xs: seq<string>) {
    forall i, j :: 0 <= i < j < |xs| ==> xs[i] != xs[j]
  }

  /** Every key is listed once in `keys`, and `keys` lists exactly the keys. */
  ghost predicate WellFormed(d: DayPlan) {
    && Distinct(d.keys)
    && (forall k :: k in d.slots <==> k in d.keys)
  }

  /** `day[mealType]`: the slot, or None when the property is absent (`undefined`). */
  function Lookup(d: DayPlan, mealType: string): (r: Option<Slot>)
    ensures r.Some? <==> mealType in d.slots
    ensures r.Some? ==> r.value == d.slots[mealType]
  {
    if mealType in d.slots then Some(d.slots[mealType]) else None
  }

  /** `day[mealType] = slot`: an existing property keeps its place in the key
      order, a new one is appended. */
  function Put(d: DayPlan, mealType: string, slot: Slot): (r: DayPlan)
    ensures Lookup(r, mealType) == Some(slot)
    ensures forall k :: k != mealType ==> Lookup(r, k) == Lookup(d, k)
    ensures mealType in d.slots ==> r.keys == d.keys
    ensures mealType !in d.slots ==> r.keys == d.keys + [mealType]
    ensures WellFormed(d) ==> WellFormed(r)
  {
    DayPlan(if mealType in d.slots then d.keys else d.keys + [mealType], d.slots[mealType := slot])
  }

  /** `Object.values(day)`: the slots in key insertion order. */
  function Values(d: DayPlan): (r: seq<Slot>)
    ensures WellFormed(d) ==> |r| == |d.keys|
    ensures WellFormed(d) ==> forall i :: 0 <= i < |r| ==> r[i] == d.slots[d.keys[i]]
  {
    ValuesOf(d.keys, d.slots)
  }

  function ValuesOf(keys: seq<string>, slots: map<string, Slot>): (r: seq<Slot>)
    ensures (forall k :: k in keys ==> k in slots) ==> |r| == |keys|
    ensures (forall k :: k in keys ==> k in slots) ==> forall i :: 0 <= i < |r| ==> r[i] == slots[keys[i]]
  {
    if keys == [] then []
    else
      var last := keys[|keys| - 1];
      ValuesOf(keys[..|keys| - 1], slots) + (if last in slots then [slots[last]] else [])
  }
}
