/** The wizard shell (App.tsx): the meal-type labels, plan materialisation
    and the state cells that the four steps read and overwrite. */
module App {
  import opened Types
  import opened Strings
  import Fallback

  /** The configuration a fresh or reset wizard starts from. */
  const InitialConfig: ConfigData :=
    ConfigData("", "", "", "Omnívora", 3, 3, 2000, "", Ai)

  /** The persisted step cell.  A value read back from storage may be none of
      the four steps. */
  datatype Step = Intro | Config | Builder | Review | Unknown(raw: string)

  /** `xs.splice(i, 0, x)`: an index past the end inserts at the end. */
  function InsertAt(xs: seq<string>, i: nat, x: string): (r: seq<string>)
    ensures |r| == |xs| + 1
    ensures x in r
    ensures forall j :: 0 <= j < i && j < |xs| ==> r[j] == xs[j]
  {
    var k := if i <= |xs| then i else |xs|;
    xs[..k] + [x] + xs[k..]
  }

  /** The ordered meal-type labels for `meals` meals a day, built by the two
      `splice` insertions: no label twice, and no label contains '-'. */
  function MealTypes(meals: int): (r: seq<string>)
    ensures Distinct(r)
    ensures forall i :: 0 <= i < |r| ==> '-' !in r[i]
  {
    LabelsWellFormed(meals);
    MealTypesSplice(meals)
  }

  /** The labels as the two splices leave them: three up to three meals,
      one more at four, five from five on, always opening with "Desayuno"
      and "Almuerzo". */
  function MealTypesSplice(meals: int): (r: seq<string>)
    ensures |r| == if meals <= 3 then 3 else if meals == 4 then 4 else 5
    ensures r[0] == "Desayuno" && r[1] == "Almuerzo"
  {
    var m0 := ["Desayuno", "Almuerzo", "Cena"];
    var m1 := if meals >= 4 then InsertAt(m0, 2, "Merienda") else m0;
    if meals >= 5 then InsertAt(m1, 4, "Recena") else m1
  }

  /** Three labels up to three meals, "Merienda" before "Cena" from four,
      and "Recena" last from five. */
  lemma MealTypesByCount(meals: int)
    ensures meals <= 3 ==> MealTypesSplice(meals) == ["Desayuno", "Almuerzo", "Cena"]
    ensures meals == 4 ==> MealTypesSplice(meals) == ["Desayuno", "Almuerzo", "Merienda", "Cena"]
    ensures meals >= 5 ==> MealTypesSplice(meals) == ["Desayuno", "Almuerzo", "Merienda", "Cena", "Recena"]
  {
    var m0 := ["Desayuno", "Almuerzo", "Cena"];
    assert InsertAt(m0, 2, "Merienda") == ["Desayuno", "Almuerzo", "Merienda", "Cena"];
    assert InsertAt(["Desayuno", "Almuerzo", "Merienda", "Cena"], 4, "Recena")
        == ["Desayuno", "Almuerzo", "Merienda", "Cena", "Recena"];
  }

  /** The five labels are distinct and have no '-'; so are the first three
      and the first four in the order the splices give. */
  lemma LabelsWellFormed(meals: int)
    ensures Distinct(MealTypesSplice(meals))
    ensures forall i :: 0 <= i < |MealTypesSplice(meals)| ==> '-' !in MealTypesSplice(meals)[i]
  {
    MealTypesByCount(meals);
    LabelWordsNoDash();
  }

  lemma LabelWordsNoDash()
    ensures '-' !in "Desayuno" && '-' !in "Almuerzo" && '-' !in "Merienda"
    ensures '-' !in "Cena" && '-' !in "Recena"
  {
  }

  /** The number of days materialised: `Number(days) || 3`, then the length
      `Array.from` uses, which treats a negative length as zero. */
  function DayCount(days: int): (n: nat)
    ensures days == 0 ==> n == 3
    ensures days > 0 ==> n == days
    ensures days < 0 ==> n == 0
  {
    if days == 0 then 3 else if days < 0 then 0 else days
  }

  /** `Math.round(calories / meals)`: the nearest whole number, halves
      rounded up. */
  function CalPerMeal(calories: int, meals: int): (r: int)
    requires meals > 0
    ensures meals * (2 * r - 1) <= 2 * calories < meals * (2 * r + 1)
  {
    var q := (2 * calories + meals) / (2 * meals);
    assert 2 * meals * q <= 2 * calories + meals < 2 * meals * q + 2 * meals;
    q
  }

  /** A non-empty AI plan is stored as it is. */
  predicate UsesAiPlan(data: ConfigData, aiPlan: Option<Plan>) {
    data.mode == Ai && aiPlan.Some? && aiPlan.value != []
  }

  /** AI mode without a usable AI plan falls back to the local generator. */
  predicate UsesFallback(data: ConfigData, aiPlan: Option<Plan>) {
    data.mode == Ai && !UsesAiPlan(data, aiPlan)
  }

  /** The meals the fallback generator returned: one row per day, one meal
      per label. */
  predicate FallbackFits(data: ConfigData, fallback: seq<seq<Meal>>) {
    && |fallback| == DayCount(data.days)
    && forall i :: 0 <= i < |fallback| ==> |fallback[i]| == |MealTypes(data.meals)|
  }

  /** Each of those meals is one `generateFallbackMeal` can return for its
      label at the rounded per-meal calories and the configured diet style. */
  ghost predicate FromGenerator(data: ConfigData, fallback: seq<seq<Meal>>) {
    && data.meals > 0
    && forall i, j :: 0 <= i < |fallback| && 0 <= j < |fallback[i]| && j < |MealTypes(data.meals)| ==>
         Fallback.Generated(fallback[i][j], MealTypes(data.meals)[j], CalPerMeal(data.calories, data.meals), data.dietStyle)
  }

  /** The slots of day `i` of a generated plan, one per meal type: empty in
      manual mode, that day's fallback meals in AI mode. */
  function PlannedSlots(data: ConfigData, fallback: seq<seq<Meal>>, i: nat): (r: seq<Slot>)
    requires data.mode == Ai ==> FallbackFits(data, fallback) && i < |fallback|
    ensures |r| == |MealTypes(data.meals)|
    ensures data.mode == Manual ==> forall j :: 0 <= j < |r| ==> r[j] == Empty
    ensures data.mode == Ai ==> forall j :: 0 <= j < |r| ==> r[j] == Filled(fallback[i][j])
  {
    var types := MealTypes(data.meals);
    if data.mode == Manual then seq(|types|, j => Empty)
    else seq(|types|, j requires 0 <= j < |types| => Filled(fallback[i][j]))
  }

  /** Day `d` has exactly the labels `types`, in that order, holding `slots`. */
  ghost predicate DayHolds(d: DayPlan, types: seq<string>, slots: seq<Slot>)
    requires |slots| == |types|
  {
    && WellFormed(d) && d.keys == types
    && forall j :: 0 <= j < |types| ==> d.slots[types[j]] == slots[j]
  }

  /** What the plan cell holds after plan generation: the AI plan untouched,
      or `DayCount(days)` days whose keys are exactly the meal types, all
      empty in manual mode and all fallback meals otherwise. */
  ghost predicate Materialised(data: ConfigData, aiPlan: Option<Plan>, fallback: seq<seq<Meal>>, plan: Plan)
    ensures Materialised(data, aiPlan, fallback, plan) && data.days >= 0 ==> plan != []
  {
    if UsesAiPlan(data, aiPlan) then plan == aiPlan.value
    else
      && (data.mode == Ai ==> FallbackFits(data, fallback))
      && |plan| == DayCount(data.days)
      && forall i :: 0 <= i < |plan| ==> DayHolds(plan[i], MealTypes(data.meals), PlannedSlots(data, fallback, i))
  }

  /** One day object filled label by label, as the `forEach` does. */
  method BuildDay(types: seq<string>, slots: seq<Slot>) returns (d: DayPlan)
    requires |slots| == |types| && Distinct(types)
    ensures DayHolds(d, types, slots)
  {
    d := EmptyDay;
    var j := 0;
    while j < |types|
      invariant 0 <= j <= |types|
      invariant WellFormed(d) && d.keys == types[..j]
      invariant forall k :: 0 <= k < j ==> d.slots[types[k]] == slots[k]
    {
      assert types[..j + 1] == types[..j] + [types[j]];
      d := Put(d, types[j], slots[j]);
      j := j + 1;
    }
  }

  /** The plan `handleGeneratePlan` stores, given the AI answer (None when the
      request failed) and the meals the fallback generator returns. */
  method GeneratePlan(data: ConfigData, aiPlan: Option<Plan>, fallback: seq<seq<Meal>>) returns (plan: Plan)
    requires UsesFallback(data, aiPlan) ==> FallbackFits(data, fallback)
    ensures Materialised(data, aiPlan, fallback, plan)
  {
    if UsesAiPlan(data, aiPlan) {
      return aiPlan.value;
    }
    var types := MealTypes(data.meals);
    var n := DayCount(data.days);
    plan := [];
    var i := 0;
    while i < n
      invariant 0 <= i <= n && |plan| == i
      invariant forall k :: 0 <= k < i ==> DayHolds(plan[k], types, PlannedSlots(data, fallback, k))
    {
      var day := BuildDay(types, PlannedSlots(data, fallback, i));
      plan := plan + [day];
      i := i + 1;
    }
  }

  /** The wizard's persisted state cells. */
  class Store {
    var step: Step
    var loading: bool
    var data: ConfigData
    var plan: Plan
    var imageCache: ImageCache
    var shoppingList: string

    /** Every cell holds its initial value. */
    predicate IsReset()
      reads this
    {
      && step == Intro && !loading && data == InitialConfig
      && plan == [] && imageCache == map[] && shoppingList == ""
    }

    constructor ()
      ensures IsReset()
    {
      step, loading, data := Intro, false, InitialConfig;
      plan, imageCache, shoppingList := [], map[], "";
    }

    /** `goHome`, reachable from the header in every step: every cell is
        reset, and resetting a reset wizard changes nothing. */
    method GoHome()
      modifies this
      ensures IsReset()
      ensures old(IsReset()) ==> unchanged(this)
    {
      step := Intro;
      data := InitialConfig;
      plan := [];
      imageCache := map[];
      shoppingList := "";
      loading := false;
    }

    /** Choosing a mode on the intro view records it and opens the form. */
    method SelectMode(mode: Mode)
      requires step == Intro
      modifies this
      ensures data == old(data).(mode := mode) && step == Config
      ensures loading == old(loading) && plan == old(plan)
      ensures imageCache == old(imageCache) && shoppingList == old(shoppingList)
    {
      data := data.(mode := mode);
      step := Config;
    }

    /** Submitting the form raises the loading flag while the plan is built. */
    method StartGeneratePlan()
      requires step == Config
      modifies this`loading
      ensures loading
    {
      loading := true;
    }

    /** The end of `handleGeneratePlan`: the materialised plan is stored, the
        loading flag drops and the builder opens; nothing else changes. */
    method FinishGeneratePlan(aiPlan: Option<Plan>, fallback: seq<seq<Meal>>)
      requires step == Config
      requires UsesFallback(data, aiPlan) ==> FallbackFits(data, fallback)
      modifies this
      ensures Materialised(data, aiPlan, fallback, plan)
      ensures !loading && step == Builder
      ensures data == old(data) && imageCache == old(imageCache) && shoppingList == old(shoppingList)
    {
      var p := GeneratePlan(data, aiPlan, fallback);
      plan := p;
      loading := false;
      step := Builder;
    }

    /** The builder's back button. */
    method BuilderBack()
      requires step == Builder
      modifies this`step
      ensures step == Config
    {
      step := Config;
    }

    /** The builder's finish button. */
    method BuilderNext()
      requires step == Builder
      modifies this`step
      ensures step == Review
    {
      step := Review;
    }

    /** The review's back button. */
    method ReviewBack()
      requires step == Review
      modifies this`step
      ensures step == Builder
    {
      step := Builder;
    }

    /** Rendering a step that is none of the four resets the wizard; the four
        steps render without changing any cell. */
    method RenderStep()
      modifies this
      ensures old(step).Unknown? ==> IsReset()
      ensures !old(step).Unknown? ==> unchanged(this)
    {
      if step.Unknown? {
        GoHome();
      }
    }
  }

  /** A fallback plan holds, for every day and label, a meal the generator
      returns for that label, at the rounded per-meal calories. */
  lemma FallbackPlanFilled(data: ConfigData, aiPlan: Option<Plan>, fallback: seq<seq<Meal>>, plan: Plan, i: nat, t: string)
    requires UsesFallback(data, aiPlan)
    requires Materialised(data, aiPlan, fallback, plan) && FromGenerator(data, fallback)
    requires i < |plan| && t in MealTypes(data.meals)
    ensures t in plan[i].slots && plan[i].slots[t].Filled?
    ensures Fallback.Generated(plan[i].slots[t].meal, t, CalPerMeal(data.calories, data.meals), data.dietStyle)
    ensures plan[i].slots[t].meal.calories == CalPerMeal(data.calories, data.meals)
  {
    var types := MealTypes(data.meals);
    var j :| 0 <= j < |types| && types[j] == t;
    assert DayHolds(plan[i], types, PlannedSlots(data, fallback, i));
    assert plan[i].slots[types[j]] == Filled(fallback[i][j]);
    Fallback.GeneratedMeal(fallback[i][j], t, CalPerMeal(data.calories, data.meals), data.dietStyle);
  }

  /** A manual plan has `DayCount(days)` days whose every slot is empty. */
  lemma ManualPlanEmpty(data: ConfigData, aiPlan: Option<Plan>, fallback: seq<seq<Meal>>, plan: Plan, i: nat, t: string)
    requires data.mode == Manual
    requires Materialised(data, aiPlan, fallback, plan)
    requires i < |plan| && t in plan[i].slots
    ensures |plan| == DayCount(data.days)
    ensures plan[i].slots[t] == Empty && t in MealTypes(data.meals)
  {
    var types := MealTypes(data.meals);
    assert DayHolds(plan[i], types, PlannedSlots(data, fallback, i));
    var j :| 0 <= j < |types| && types[j] == t;
    assert plan[i].slots[types[j]] == PlannedSlots(data, fallback, i)[j];
  }

  /** The worked case of the defaults: three meals at 2000 kcal give
      667 kcal per meal. */
  lemma DefaultCalPerMeal()
    ensures CalPerMeal(2000, 3) == 667
  {
  }
}
