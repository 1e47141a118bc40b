/** The meal editor (components/MealEditor.tsx): a partial meal edited field
    by field, filled in by the AI on request, and completed with defaults
    when it is saved. */
module MealEditor {
  import opened Types
  import opened Strings

  /** `Partial<Meal>`: every field may be missing. */
  datatype Draft = Draft(
    name: Option<string>,
    description: Option<string>,
    calories: Option<int>,
    ingredients: Option<TextList>,
    instructions: Option<TextList>,
    cookTime: Option<string>)

  /** The editor opened on an empty slot `{}`. */
  const Blank: Draft := Draft(None, None, None, None, None, None)

  /** The editor opened on a meal: every field present, `cookTime` as the
      meal has it. */
  function DraftOf(m: Meal): (d: Draft)
    ensures d.name == Some(m.name) && d.cookTime == m.cookTime
  {
    Draft(Some(m.name), Some(m.description), Some(m.calories), Some(m.ingredients),
          Some(m.instructions), m.cookTime)
  }

  /** The draft `handleEdit` opens for a slot: the meal itself, the empty
      record for `{}`, and a blank name and description when the slot is
      missing. */
  function DraftOfSlot(s: Option<Slot>): (d: Draft)
    ensures s == Some(Empty) ==> d == Blank
    ensures s.Some? && s.value.Filled? ==> d == DraftOf(s.value.meal)
    ensures s.None? ==> d == Blank.(name := Some(""), description := Some(""))
  {
    match s
    case None => Blank.(name := Some(""), description := Some(""))
    case Some(Empty) => Blank
    case Some(Filled(m)) => DraftOf(m)
  }

  /** JavaScript truthiness of an optional string field. */
  predicate Present(s: Option<string>) {
    s.Some? && s.value != ""
  }

  /** JavaScript truthiness of an ingredients or instructions field: every
      array is truthy, a string when it is not empty. */
  predicate PresentText(t: Option<TextList>) {
    t.Some? && (t.value.ListForm? || t.value.text != "")
  }

  /** `handleSave`: each missing or falsy field takes its default. */
  function Finalize(d: Draft): (m: Meal)
    ensures m.name != ""
    ensures m.name == (if Present(d.name) then d.name.value else "Sin nombre")
    ensures m.description == (if Present(d.description) then d.description.value else "")
    ensures m.calories == (if d.calories.Some? then d.calories.value else 0)
    ensures m.ingredients == (if PresentText(d.ingredients) then d.ingredients.value else StringForm(""))
    ensures m.instructions == (if PresentText(d.instructions) then d.instructions.value else StringForm(""))
    ensures m.cookTime == Some(if Present(d.cookTime) then d.cookTime.value else "N/A")
  {
    Meal(
      if Present(d.name) then d.name.value else "Sin nombre",
      if Present(d.description) then d.description.value else "",
      if d.calories.Some? then d.calories.value else 0,
      if PresentText(d.ingredients) then d.ingredients.value else StringForm(""),
      if PresentText(d.instructions) then d.instructions.value else StringForm(""),
      Some(if Present(d.cookTime) then d.cookTime.value else "N/A"))
  }

  /** A meal whose name and cooking time are set is saved unchanged when it
      is edited without changes. */
  lemma SaveUnchanged(m: Meal)
    requires m.name != "" && m.cookTime.Some? && m.cookTime.value != ""
    ensures Finalize(DraftOf(m)) == m
  {
    assert m.ingredients == (if PresentText(Some(m.ingredients)) then m.ingredients else StringForm(""));
    assert m.instructions == (if PresentText(Some(m.instructions)) then m.instructions else StringForm(""));
  }

  /** Saving a saved meal again changes nothing. */
  lemma SaveIdempotent(d: Draft)
    ensures Finalize(DraftOf(Finalize(d))) == Finalize(d)
  {
    SaveUnchanged(Finalize(d));
  }

  /** An ingredients or instructions field as the AI fill stores it: an array
      becomes its lines joined by '\n', a string is kept. */
  function Flatten(t: TextList): (s: string)
    ensures t.StringForm? ==> s == t.text
    ensures t.ListForm? && (forall k :: 0 <= k < |t.items| ==> '\n' !in t.items[k]) && |t.items| >= 1 ==>
      Split(s, '\n') == t.items
  {
    if t.ListForm? then
      SplitJoinWhen(t.items, '\n');
      Join(t.items, '\n')
    else t.text
  }

  /** The state update of a successful AI fill: the AI's fields override the
      draft's, with both lists flattened to strings; a cooking time the AI
      leaves out keeps the draft's. */
  function Merge(prev: Draft, ai: Meal): (d: Draft)
    ensures d.name == Some(ai.name) && d.description == Some(ai.description)
    ensures d.calories == Some(ai.calories)
    ensures d.ingredients == Some(StringForm(Flatten(ai.ingredients)))
    ensures d.instructions == Some(StringForm(Flatten(ai.instructions)))
    ensures d.cookTime == (if ai.cookTime.Some? then ai.cookTime else prev.cookTime)
  {
    Draft(Some(ai.name), Some(ai.description), Some(ai.calories),
          Some(StringForm(Flatten(ai.ingredients))), Some(StringForm(Flatten(ai.instructions))),
          if ai.cookTime.Some? then ai.cookTime else prev.cookTime)
  }

  /** After an AI fill the draft depends on the previous draft only through
      its cooking time, and only when the AI gives none. */
  lemma MergeOverrides(prev: Draft, prev': Draft, ai: Meal)
    requires ai.cookTime.Some? || prev.cookTime == prev'.cookTime
    ensures Merge(prev, ai) == Merge(prev', ai)
  {
  }

  /** One input of the form. */
  datatype Edit =
    | SetName(name: string)
    | SetDescription(description: string)
    | SetCalories(calories: int)
    | SetCookTime(cookTime: string)
    | SetIngredients(ingredients: string)
    | SetInstructions(instructions: string)

  /** `handleInputChange(field, value)`. */
  function Apply(d: Draft, e: Edit): (r: Draft)
    ensures e.SetName? ==> r == d.(name := Some(e.name))
    ensures e.SetDescription? ==> r == d.(description := Some(e.description))
    ensures e.SetCalories? ==> r == d.(calories := Some(e.calories))
    ensures e.SetCookTime? ==> r == d.(cookTime := Some(e.cookTime))
    ensures e.SetIngredients? ==> r == d.(ingredients := Some(StringForm(e.ingredients)))
    ensures e.SetInstructions? ==> r == d.(instructions := Some(StringForm(e.instructions)))
  {
    match e
    case SetName(v) => d.(name := Some(v))
    case SetDescription(v) => d.(description := Some(v))
    case SetCalories(v) => d.(calories := Some(v))
    case SetCookTime(v) => d.(cookTime := Some(v))
    case SetIngredients(v) => d.(ingredients := Some(StringForm(v)))
    case SetInstructions(v) => d.(instructions := Some(StringForm(v)))
  }

  /** The number of fields in which two drafts differ. */
  function Differences(a: Draft, b: Draft): (n: nat)
    ensures n <= 6
    ensures n == 0 <==> a == b
  {
    (if a.name != b.name then 1 else 0)
    + (if a.description != b.description then 1 else 0)
    + (if a.calories != b.calories then 1 else 0)
    + (if a.ingredients != b.ingredients then 1 else 0)
    + (if a.instructions != b.instructions then 1 else 0)
    + (if a.cookTime != b.cookTime then 1 else 0)
  }

  /** An input changes at most one field of the draft. */
  lemma ApplyChangesOneField(d: Draft, e: Edit)
    ensures Differences(d, Apply(d, e)) <= 1
  {
  }

  /** The editor's state cells. */
  class EditorState {
    var localMeal: Draft
    var isFilling: bool

    /** The editor opened on the draft of the slot being edited. */
    constructor (initial: Draft)
      ensures localMeal == initial && !isFilling
    {
      localMeal := initial;
      isFilling := false;
    }

    /** `handleInputChange`. */
    method InputChange(e: Edit)
      modifies this`localMeal
      ensures localMeal == Apply(old(localMeal), e)
      ensures Differences(old(localMeal), localMeal) <= 1
    {
      ApplyChangesOneField(localMeal, e);
      localMeal := Apply(localMeal, e);
    }

    /** The synchronous start of `handleAiFill`: without a name no request is
        made and nothing changes; otherwise the request for that name is
        issued and the filling flag is raised. */
    method BeginAiFill() returns (request: Option<string>)
      modifies this`isFilling
      ensures request.None? <==> !Present(localMeal.name)
      ensures request.Some? ==> request.value == localMeal.name.value && isFilling
      ensures request.None? ==> isFilling == old(isFilling)
    {
      if !Present(localMeal.name) {
        return None;
      }
      isFilling := true;
      return Some(localMeal.name.value);
    }

    /** The end of `handleAiFill`, with the AI's answer (None when the request
        failed): a result is merged in, a failure leaves the draft alone, and
        the filling flag drops on both paths. */
    method CompleteAiFill(ai: Option<Meal>)
      modifies this
      ensures !isFilling
      ensures ai.Some? ==> localMeal == Merge(old(localMeal), ai.value)
      ensures ai.None? ==> localMeal == old(localMeal)
    {
      if ai.Some? {
        localMeal := Merge(localMeal, ai.value);
      }
      isFilling := false;
    }

    /** `handleSave`: the meal handed to the builder. */
    method Save() returns (m: Meal)
      ensures m == Finalize(localMeal) && m.name != ""
    {
      m := Finalize(localMeal);
    }
  }
}
