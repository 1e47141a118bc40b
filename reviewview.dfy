/** The rest of the review step (components/Review.tsx): the backup shopping
    list built from the plan when the AI gives no list, the ingredient and
    instruction lists of the recipe modal and of the print view, and the
    image each of them shows for a meal. */
module ReviewView {
  import opened Types
  import opened Strings
  import App
  import Builder
  import MealEditor
  import Fallback
  import Review

  // ----- The backup shopping list -----

  const BackupTitle: string := "Lista de Compras (Respaldo)"

  /** The first line of the backup list. */
  const BackupHeader: string := "### " + BackupTitle + "\n"

  /** JavaScript truthiness of an ingredients field: every array, a string
      when it is not empty. */
  predicate HasIngredients(t: TextList) {
    t.ListForm? || t.text != ""
  }

  /** What one value of a day adds to the backup list: for a meal with a
      name and ingredients, a bold "Para <name>:" line and its ingredients,
      an array joined by '\n'. */
  function BackupEntry(s: Slot): string {
    if s.Filled? && s.meal.name != "" && HasIngredients(s.meal.ingredients) then
      "\n**Para " + s.meal.name + ":**\n" + MealEditor.Flatten(s.meal.ingredients) + "\n"
    else ""
  }

  /** The entries of a day's values, in order. */
  function DayEntries(values: seq<Slot>): string {
    if values == [] then "" else DayEntries(values[..|values| - 1]) + BackupEntry(values[|values| - 1])
  }

  /** The entries of every day, day after day, each day's in the order of
      `Object.values`. */
  function PlanEntries(plan: Plan): string {
    if plan == [] then "" else PlanEntries(plan[..|plan| - 1]) + DayEntries(Values(plan[|plan| - 1]))
  }

  /** The backup list: its heading line, then the entries. It opens with a
      "### " marker, so the parser drops no preamble from it, and a plan
      without days gives the heading alone. */
  function BackupList(plan: Plan): (r: string)
    ensures StartsWith(r, BackupHeader) && Review.MarkerLen(r, 0) == 4
    ensures plan == [] ==> r == BackupHeader
  {
    BackupHeader + PlanEntries(plan)
  }

  lemma DayEntriesSnoc(values: seq<Slot>, j: nat)
    requires j < |values|
    ensures DayEntries(values[..j + 1]) == DayEntries(values[..j]) + BackupEntry(values[j])
  {
    assert values[..j + 1][..j] == values[..j];
  }

  lemma PlanEntriesSnoc(plan: Plan, i: nat)
    requires i < |plan|
    ensures PlanEntries(plan[..i + 1]) == PlanEntries(plan[..i]) + DayEntries(Values(plan[i]))
  {
    assert plan[..i + 1][..i] == plan[..i];
  }

  /** The nested `forEach` of `genList` that grows the backup list. */
  method BuildBackupList(plan: Plan) returns (list: string)
    ensures list == BackupList(plan)
  {
    list := BackupHeader;
    var i := 0;
    assert plan[..0] == [];
    while i < |plan|
      invariant 0 <= i <= |plan|
      invariant list == BackupHeader + PlanEntries(plan[..i])
    {
      var values := Values(plan[i]);
      ghost var before := list;
      var j := 0;
      assert values[..0] == [];
      while j < |values|
        invariant 0 <= j <= |values|
        invariant list == before + DayEntries(values[..j])
      {
        DayEntriesSnoc(values, j);
        Review.Associative(before, DayEntries(values[..j]), BackupEntry(values[j]));
        list := list + BackupEntry(values[j]);
        j := j + 1;
      }
      assert values[..j] == values;
      PlanEntriesSnoc(plan, i);
      Review.Associative(BackupHeader, PlanEntries(plan[..i]), DayEntries(values));
      i := i + 1;
    }
    assert plan[..i] == plan;
  }

  /** A value with no dash in its meal's name or ingredients. */
  predicate DashFreeSlot(s: Slot) {
    s.Filled? ==> '-' !in s.meal.name && '-' !in MealEditor.Flatten(s.meal.ingredients)
  }

  /** No value of any day has a dash in its meal's name or ingredients. */
  predicate DashFree(plan: Plan) {
    forall i :: 0 <= i < |plan| ==> forall s :: s in Values(plan[i]) ==> DashFreeSlot(s)
  }

  lemma EntryNoDash(s: Slot)
    requires DashFreeSlot(s)
    ensures '-' !in BackupEntry(s)
  {
  }

  lemma {:induction false} DayEntriesNoDash(values: seq<Slot>)
    requires forall s :: s in values ==> DashFreeSlot(s)
    ensures '-' !in DayEntries(values)
  {
    if values != [] {
      var n := |values| - 1;
      assert values[n] in values;
      assert forall s :: s in values[..n] ==> s in values;
      DayEntriesNoDash(values[..n]);
      EntryNoDash(values[n]);
    }
  }

  lemma {:induction false} PlanEntriesNoDash(plan: Plan)
    requires DashFree(plan)
    ensures '-' !in PlanEntries(plan)
  {
    if plan != [] {
      var n := |plan| - 1;
      assert DashFree(plan[..n]) by {
        forall i | 0 <= i < n ensures plan[..n][i] == plan[i] { }
      }
      PlanEntriesNoDash(plan[..n]);
      DayEntriesNoDash(Values(plan[n]));
    }
  }

  lemma HeaderNoDash()
    ensures '-' !in BackupHeader
  {
    assert forall i :: 0 <= i < |BackupHeader| ==> BackupHeader[i] != '-';
  }

  lemma NoDashJoined(a: string, b: string)
    requires '-' !in a && '-' !in b
    ensures '-' !in a + b
  {
  }

  /** When no meal name or ingredient text has a dash, as for an AI plan
      whose ingredient arrays hold plain quantities, the checklist reads no
      category from the backup list and shows its "not generated yet"
      placeholder; a plan without any meal does the same. */
  lemma BackupWithoutDashesShowsNothing(plan: Plan)
    requires DashFree(plan)
    ensures Review.Parse(BackupList(plan)) == []
  {
    PlanEntriesNoDash(plan);
    HeaderNoDash();
    NoDashJoined(BackupHeader, PlanEntries(plan));
    Review.NoDashNoCategories(BackupList(plan));
  }

  /** A plan whose days hold only empty slots. */
  predicate NoMeals(plan: Plan) {
    forall i :: 0 <= i < |plan| ==> forall s :: s in Values(plan[i]) ==> s == Empty
  }

  /** A manual plan that is still empty gives the placeholder too. */
  lemma EmptySlotsShowNothing(plan: Plan)
    requires NoMeals(plan)
    ensures Review.Parse(BackupList(plan)) == []
  {
    BackupWithoutDashesShowsNothing(plan);
  }

  /** A day with one label holding one meal. */
  function OneMealDay(mealType: string, m: Meal): DayPlan {
    DayPlan([mealType], map[mealType := Filled(m)])
  }

  /** A name that fits on one line. */
  predicate OneLine(name: string) {
    name != [] && forall i :: 0 <= i < |name| ==> !IsLineTerminator(name[i])
  }

  /** The text the checklist reads as the title of a bold "Para" line: the
      closing "**" stays in it. */
  function BoldTitle(name: string): string {
    "Para " + name + ":**"
  }

  lemma BoldTitlePlain(name: string)
    requires OneLine(name)
    ensures Review.PlainTitle(BoldTitle(name))
  {
    var t := BoldTitle(name);
    assert t[0] == 'P' && t[|t| - 1] == '*';
    forall i | 0 <= i < |t|
      ensures !IsLineTerminator(t[i])
    {
      if 5 <= i < 5 + |name| {
        assert t[i] == name[i - 5];
      }
    }
  }

  /** Joined bullet lines followed by a '\n' are the checklist's item lines. */
  lemma {:induction false} JoinedBullets(items: seq<string>)
    requires items != []
    ensures Join(Fallback.Bulleted(items), '\n') + "\n" == Review.ItemLines(items)
  {
    if |items| > 1 {
      JoinedBullets(items[1..]);
      assert Fallback.Bulleted(items)[1..] == Fallback.Bulleted(items[1..]);
    }
  }

  /** The backup list's title reads back unchanged. */
  lemma BackupTitlePlain()
    ensures Review.PlainTitle(BackupTitle)
  {
    forall i | 0 <= i < |BackupTitle|
      ensures !IsLineTerminator(BackupTitle[i])
    {
    }
  }

  /** The bold entry of a meal, regrouped as a blank line and a "**"
      heading over the ingredient text. */
  lemma EntryShape(name: string, j: string)
    ensures "\n**Para " + name + ":**\n" + j + "\n"
      == "\n" + ("**" + BoldTitle(name) + "\n" + (j + "\n"))
  {
    var x := "\n**Para " + name + ":**\n" + j + "\n";
    var y := "\n" + ("**" + BoldTitle(name) + "\n" + (j + "\n"));
    assert |x| == |y|;
    forall i | 0 <= i < |x|
      ensures x[i] == y[i]
    {
    }
  }

  /** A plan of one day with one value has that value's entry alone. */
  lemma OneMealEntries(mealType: string, m: Meal)
    ensures PlanEntries([OneMealDay(mealType, m)]) == BackupEntry(Filled(m))
  {
    var d := OneMealDay(mealType, m);
    assert Values(d) == [Filled(m)];
    assert [Filled(m)][..0] == [];
    assert DayEntries([Filled(m)]) == BackupEntry(Filled(m));
    assert [d][..0] == [];
  }

  lemma JoinedBulletsLength(items: seq<string>)
    requires items != []
    ensures |Join(Fallback.Bulleted(items), '\n')| >= 2
  {
    JoinedBullets(items);
    Review.ItemLinesCons(items);
  }

  /** The backup list of a plan of one day with one meal. */
  lemma OneMealBackup(mealType: string, m: Meal, items: seq<string>)
    requires m.name != "" && items != []
    requires m.ingredients == StringForm(Join(Fallback.Bulleted(items), '\n'))
    ensures BackupList([OneMealDay(mealType, m)])
      == Review.Heading(BackupTitle) + ("\n" + ("**" + BoldTitle(m.name) + "\n" + Review.ItemLines(items)))
  {
    var j := Join(Fallback.Bulleted(items), '\n');
    OneMealEntries(mealType, m);
    JoinedBulletsLength(items);
    assert HasIngredients(m.ingredients);
    assert BackupEntry(Filled(m)) == "\n**Para " + m.name + ":**\n" + j + "\n";
    EntryShape(m.name, j);
    JoinedBullets(items);
  }

  /** The pieces of a "### " heading, a blank line, a "**" heading and its
      item lines. */
  lemma BlankThenBoldScan(t: string, b: string, items: seq<string>)
    requires Review.PlainTitle(t) && Review.PlainTitle(b) && items != []
    requires forall k :: 0 <= k < |items| ==> Review.PlainItem(items[k])
    ensures Review.Scan(Review.Heading(t) + ("\n" + ("**" + b + "\n" + Review.ItemLines(items))))
      == ["", t, "\n", b, Review.ItemLines(items)]
  {
    var bold := "**" + b + "\n" + Review.ItemLines(items);
    Review.HeadingFirst(t, "\n" + bold);
    BlankBoldScan(b, items);
    TwoThenThree("", t, "\n", b, Review.ItemLines(items));
  }

  lemma TwoThenThree<T>(p: T, q: T, r: T, s: T, u: T)
    ensures [p, q] + [r, s, u] == [p, q, r, s, u]
  {
  }

  /** The pieces of a blank line, a "**" heading and its item lines. */
  lemma BlankBoldScan(b: string, items: seq<string>)
    requires Review.PlainTitle(b) && items != []
    requires forall k :: 0 <= k < |items| ==> Review.PlainItem(items[k])
    ensures Review.Scan("\n" + ("**" + b + "\n" + Review.ItemLines(items)))
      == ["\n", b, Review.ItemLines(items)]
  {
    var lines := Review.ItemLines(items);
    var bold := "**" + b + "\n" + lines;
    Review.BoldFirst(b, lines);
    Review.ScanBeforeHeading("\n", bold);
    Review.ItemLinesUnmarked(items);
    Review.ScanUnmarked(lines);
  }

  /** The categories of those pieces: the first heading has no items and is
      dropped, the "**" heading keeps its items. */
  lemma BlankThenBoldCollect(t: string, b: string, items: seq<string>)
    requires Review.PlainTitle(b) && items != []
    requires forall k :: 0 <= k < |items| ==> Review.PlainItem(items[k])
    ensures Review.Collect([t, "\n"] + [b, Review.ItemLines(items)], Review.Items)
      == [Review.Category(b, items)]
  {
    assert IndexOf("\n", '-', 0) == 1;
    Review.ItemsNone("\n");
    Review.CollectSkip(t, "\n", [b, Review.ItemLines(items)]);
    Review.ItemLinesItems(items);
    Review.CollectLast(b, Review.ItemLines(items), items);
  }

  /** The sections of those pieces: the leading empty piece dropped. */
  lemma BlankThenBoldSections(t: string, b: string, items: seq<string>)
    requires Review.PlainTitle(t) && Review.PlainTitle(b) && items != []
    requires forall k :: 0 <= k < |items| ==> Review.PlainItem(items[k])
    ensures Review.Sections(Review.Heading(t) + ("\n" + ("**" + b + "\n" + Review.ItemLines(items))))
      == [t, "\n"] + [b, Review.ItemLines(items)]
  {
    BlankThenBoldScan(t, b, items);
    Review.ItemLinesUnmarked(items);
    Review.FourPieces(t, "\n", b, Review.ItemLines(items));
  }

  /** The parse of those pieces. */
  lemma BlankThenBoldParses(t: string, b: string, items: seq<string>)
    requires Review.PlainTitle(t) && Review.PlainTitle(b) && items != []
    requires forall k :: 0 <= k < |items| ==> Review.PlainItem(items[k])
    ensures Review.Parse(Review.Heading(t) + ("\n" + ("**" + b + "\n" + Review.ItemLines(items))))
      == [Review.Category(b, items)]
  {
    var lines := Review.ItemLines(items);
    var text := Review.Heading(t) + ("\n" + ("**" + b + "\n" + lines));
    var secs := [t, "\n"] + [b, lines];
    BlankThenBoldSections(t, b, items);
    Review.HeadingFirst(t, "\n" + ("**" + b + "\n" + lines));
    BlankThenBoldCollect(t, b, items);
    Review.ParseFromMarker(text, secs, [Review.Category(b, items)]);
  }

  /** The backup list of one meal whose ingredients are bullet lines reads
      as a single category: the heading's own category is dropped for want
      of items, and the meal's title keeps the closing "**" of its bold
      line. */
  lemma OneMealBackupParses(mealType: string, m: Meal, items: seq<string>)
    requires OneLine(m.name) && items != []
    requires forall k :: 0 <= k < |items| ==> Review.PlainItem(items[k])
    requires m.ingredients == StringForm(Join(Fallback.Bulleted(items), '\n'))
    ensures Review.Parse(BackupList([OneMealDay(mealType, m)]))
      == [Review.Category("Para " + m.name + ":**", items)]
  {
    OneMealBackup(mealType, m, items);
    BackupTitlePlain();
    BoldTitlePlain(m.name);
    BlankThenBoldParses(BackupTitle, BoldTitle(m.name), items);
  }

  /** The review step's list request, with its `loadingList` flag. */
  class ReviewScreen {
    var loadingList: bool

    constructor ()
      ensures !loadingList
    {
      loadingList := false;
    }

    /** The start of `genList`: nothing for an empty plan; otherwise the
        flag is raised and the AI is asked for a list. */
    method BeginGenList(store: App.Store) returns (requested: bool)
      modifies this`loadingList
      ensures requested <==> store.plan != []
      ensures requested ==> loadingList
      ensures !requested ==> loadingList == old(loadingList)
    {
      requested := store.plan != [];
      if requested {
        loadingList := true;
      }
    }

    /** The end of `genList`, with the AI's answer (None when it failed): a
        non-empty answer becomes the list, anything else the backup list;
        the flag drops on both paths. */
    method FinishGenList(store: App.Store, ai: Option<string>)
      modifies this`loadingList, store`shoppingList
      ensures !loadingList
      ensures ai.Some? && ai.value != "" ==> store.shoppingList == ai.value
      ensures !(ai.Some? && ai.value != "") ==> store.shoppingList == BackupList(store.plan)
    {
      if ai.Some? && ai.value != "" {
        store.shoppingList := ai.value;
      } else {
        var list := BuildBackupList(store.plan);
        store.shoppingList := list;
      }
      loadingList := false;
    }
  }

  // ----- Ingredient and instruction lists -----

  /** The entries of a field before rendering: an array as it is, a string
      split at '\n'. */
  function Lines(t: TextList): (r: seq<string>)
    ensures t.ListForm? ==> r == t.items
    ensures t.StringForm? ==> |r| >= 1
  {
    if t.ListForm? then t.items else Split(t.text, '\n')
  }

  /** `replace(/^- /, '')`: one leading "- " removed. */
  function StripBullet(x: string): (r: string)
    ensures StartsWith(x, "- ") ==> "- " + r == x
    ensures !StartsWith(x, "- ") ==> r == x
  {
    if StartsWith(x, "- ") then x[2..] else x
  }

  function StripAll(xs: seq<string>): (r: seq<string>)
    ensures |r| == |xs|
    ensures forall i :: 0 <= i < |xs| ==> r[i] == StripBullet(xs[i])
  {
    seq(|xs|, i requires 0 <= i < |xs| => StripBullet(xs[i]))
  }

  /** `renderList` of the recipe modal: the empty entries dropped, then one
      leading "- " stripped from each. */
  function ModalList(t: TextList): (r: seq<string>)
    ensures |r| <= |Lines(t)|
    ensures "" !in Lines(t) ==> |r| == |Lines(t)|
  {
    StripAll(Review.NonEmpty(Lines(t)))
  }

  /** The ingredients of the print view: every entry, the empty ones too,
      with one leading "- " stripped. */
  function PrintIngredients(t: TextList): (r: seq<string>)
    ensures |r| == |Lines(t)|
    ensures t.ListForm? ==> |r| == |t.items|
    ensures forall k :: 0 <= k < |r| ==> "- " + r[k] == Lines(t)[k] || r[k] == Lines(t)[k]
  {
    StripAll(Lines(t))
  }

  /** The instructions of the print view: an array joined by '\n', a string
      trimmed. */
  function PrintInstructions(t: TextList): (r: string)
    ensures t.StringForm? ==> r == Trim(t.text)
    ensures t.ListForm? && |t.items| >= 1 && (forall k :: 0 <= k < |t.items| ==> '\n' !in t.items[k]) ==>
      Split(r, '\n') == t.items
  {
    if t.ListForm? then MealEditor.Flatten(t) else Trim(t.text)
  }

  /** The modal shows the print view's entries without the empty ones: at
      most as many, each of them one the print view shows, and the same list
      when no entry is empty. */
  lemma ModalWithinPrint(t: TextList)
    ensures |ModalList(t)| <= |PrintIngredients(t)|
    ensures forall x :: x in ModalList(t) ==> x in PrintIngredients(t)
    ensures "" !in Lines(t) ==> ModalList(t) == PrintIngredients(t)
  {
    var kept := Review.NonEmpty(Lines(t));
    forall x | x in ModalList(t)
      ensures x in PrintIngredients(t)
    {
      var i :| 0 <= i < |kept| && ModalList(t)[i] == x;
      var j :| 0 <= j < |Lines(t)| && Lines(t)[j] == kept[i];
      assert PrintIngredients(t)[j] == x;
    }
    if "" !in Lines(t) {
      Review.NonEmptyKeepsAll(Lines(t));
    }
  }

  /** An empty line between two lines of a string field is an empty entry
      of the print view and no entry of the modal. */
  lemma BlankBetween(x: string, y: string)
    requires x != "" && y != "" && '\n' !in x && '\n' !in y
    requires !StartsWith(x, "- ") && !StartsWith(y, "- ")
    ensures PrintIngredients(StringForm(Join([x, "", y], '\n'))) == [x, "", y]
    ensures ModalList(StringForm(Join([x, "", y], '\n'))) == [x, y]
  {
    SplitJoin([x, "", y], '\n');
    NonEmptyThree(x, y);
    assert !StartsWith("", "- ");
    var all := StripAll([x, "", y]);
    assert all[0] == x && all[1] == "" && all[2] == y;
    var kept := StripAll([x, y]);
    assert kept[0] == x && kept[1] == y;
  }

  lemma NonEmptyThree(x: string, y: string)
    requires x != "" && y != ""
    ensures Review.NonEmpty([x, "", y]) == [x, y]
  {
    assert [x, "", y][1..] == ["", y];
    assert ["", y][1..] == [y];
    assert [y][1..] == [];
  }

  /** The text "a", an empty line, "b". */
  lemma BlankLineText()
    ensures Join(["a", "", "b"], '\n') == "a\n\nb"
    ensures !StartsWith("a", "- ") && !StartsWith("b", "- ")
  {
    assert ["a", "", "b"][1..] == ["", "b"];
    assert ["", "b"][1..] == ["b"];
  }

  /** An empty line of a string field is an empty entry of the print view
      and no entry of the modal. */
  lemma BlankLineDiffers()
    ensures PrintIngredients(StringForm("a\n\nb")) == ["a", "", "b"]
    ensures ModalList(StringForm("a\n\nb")) == ["a", "b"]
  {
    BlankLineText();
    BlankBetween("a", "b");
  }

  /** Stripping the bullets of bulleted entries gives the entries back. */
  lemma StripBulleted(xs: seq<string>)
    ensures StripAll(Fallback.Bulleted(xs)) == xs
  {
    forall i | 0 <= i < |xs|
      ensures StripBullet("- " + xs[i]) == xs[i]
    {
      assert ("- " + xs[i])[..2] == "- ";
    }
  }

  /** The modal shows a composed fallback dish's five ingredients without
      their bullets: the protein, the two sides without "con " and "y ", the
      oil and the seasoning. */
  lemma FallbackDishModal(mealType: string, caloriesPerMeal: int, dietStyle: string, draw: Fallback.Draw)
    requires !Fallback.IsBreakfast(mealType)
    requires Fallback.DrawFits(mealType, dietStyle, draw)
    ensures
      var p := Fallback.ProteinSet(Fallback.IsVeg(dietStyle))[draw.protein];
      var c := Fallback.Carbs[draw.carb];
      var v := Fallback.Veggies[draw.veggie];
      ModalList(Fallback.FallbackMeal(mealType, caloriesPerMeal, dietStyle, draw).ingredients)
        == [p, Fallback.SideWords(c, "con "), Fallback.SideWords(v, "y "), Fallback.OilLine, Fallback.SaltLine]
  {
    var p := Fallback.ProteinSet(Fallback.IsVeg(dietStyle))[draw.protein];
    var c := Fallback.Carbs[draw.carb];
    var v := Fallback.Veggies[draw.veggie];
    var names := [p, Fallback.SideWords(c, "con "), Fallback.SideWords(v, "y "), Fallback.OilLine, Fallback.SaltLine];
    Fallback.DishIngredientLines(mealType, caloriesPerMeal, dietStyle, draw);
    ModalOfBulleted(Fallback.FallbackMeal(mealType, caloriesPerMeal, dietStyle, draw).ingredients, names);
  }

  /** The modal shows a string of bullet lines as the bulleted entries. */
  lemma ModalOfBulleted(t: TextList, names: seq<string>)
    requires t.StringForm? && Split(t.text, '\n') == Fallback.Bulleted(names)
    ensures ModalList(t) == names
  {
    var lines := Fallback.Bulleted(names);
    assert "" !in lines by {
      forall i | 0 <= i < |lines| ensures |lines[i]| >= 2 { }
    }
    Review.NonEmptyKeepsAll(lines);
    StripBulleted(names);
  }

  // ----- Images -----

  /** The cache key a review card and the print view use for the slot of
      `mealType` on day `day`: `${i}-${type}-${meal.name}` when the slot holds
      a meal with a name, none otherwise. It is the key of the builder's
      image request for that slot. */
  function ShownKey(plan: Plan, day: nat, mealType: string): (r: Option<string>)
    ensures r.Some? <==> Builder.RequestFor(plan, day, mealType) != []
    ensures r.Some? ==> r.value == Builder.RequestFor(plan, day, mealType)[0].key
  {
    var s := Builder.SlotAt(plan, day, mealType);
    if s.Some? && s.value.Filled? && s.value.meal.name != "" then
      Some(Builder.CacheKey(day, mealType, s.value.meal.name))
    else None
  }

  /** The print view's image for a slot: the cache entry of its key when
      the entry is a non-empty text other than the two sentinels. */
  function PrintImage(cache: ImageCache, plan: Plan, day: nat, mealType: string): (r: Option<string>)
    ensures r.Some? <==>
      var k := ShownKey(plan, day, mealType);
      k.Some? && k.value in cache && cache[k.value] != "" && cache[k.value] != LoadingEntry && cache[k.value] != FailedEntry
    ensures r.Some? ==> r.value == cache[ShownKey(plan, day, mealType).value]
  {
    var k := ShownKey(plan, day, mealType);
    if k.Some? && k.value in cache && cache[k.value] != "" && cache[k.value] != LoadingEntry && cache[k.value] != FailedEntry
    then Some(cache[k.value]) else None
  }

  /** The `imageUrl` of a review card and of the modal it opens: the raw
      entry of the slot's key, when there is one. */
  function CardUrl(cache: ImageCache, plan: Plan, day: nat, mealType: string): (r: Option<string>)
    ensures r.Some? <==> var k := ShownKey(plan, day, mealType); k.Some? && k.value in cache
    ensures r.Some? ==> r.value == cache[ShownKey(plan, day, mealType).value]
  {
    var k := ShownKey(plan, day, mealType);
    if k.Some? && k.value in cache then Some(cache[k.value]) else None
  }

  /** What the review card shows: its `imageUrl` when truthy and neither
      sentinel; a spinner otherwise. */
  function CardImage(cache: ImageCache, plan: Plan, day: nat, mealType: string): (r: Option<string>)
    ensures r.Some? ==> r.value != "" && r.value != LoadingEntry && r.value != FailedEntry
    ensures r.Some? ==> CardUrl(cache, plan, day, mealType) == r
    ensures r.None? ==> var url := CardUrl(cache, plan, day, mealType);
      url.None? || url.value in {"", LoadingEntry, FailedEntry}
  {
    var url := CardUrl(cache, plan, day, mealType);
    if url.Some? && url.value != "" && url.value != LoadingEntry && url.value != FailedEntry then url else None
  }

  /** What the recipe modal shows: its `imageUrl` whenever it is truthy. */
  function ModalImage(cache: ImageCache, plan: Plan, day: nat, mealType: string): (r: Option<string>)
    ensures r.Some? <==> var url := CardUrl(cache, plan, day, mealType); url.Some? && url.value != ""
    ensures r.Some? ==> CardUrl(cache, plan, day, mealType) == r
  {
    var url := CardUrl(cache, plan, day, mealType);
    if url.Some? && url.value != "" then url else None
  }

  /** The card and the print view show the same image. */
  lemma CardMatchesPrint(cache: ImageCache, plan: Plan, day: nat, mealType: string)
    ensures CardImage(cache, plan, day, mealType) == PrintImage(cache, plan, day, mealType)
  {
  }

  /** The modal receives the raw entry, so for a pending or failed request
      it is handed the sentinel as its image source while the card shows
      none. */
  lemma ModalGetsSentinel(cache: ImageCache, plan: Plan, day: nat, mealType: string)
    requires var k := ShownKey(plan, day, mealType);
      k.Some? && k.value in cache && (cache[k.value] == LoadingEntry || cache[k.value] == FailedEntry)
    ensures ModalImage(cache, plan, day, mealType) == Some(cache[ShownKey(plan, day, mealType).value])
    ensures CardImage(cache, plan, day, mealType).None?
  {
  }

  /** Apart from the sentinels, the modal shows what the card shows. */
  lemma ModalMatchesCard(cache: ImageCache, plan: Plan, day: nat, mealType: string)
    requires var k := ShownKey(plan, day, mealType);
      !(k.Some? && k.value in cache && (cache[k.value] == LoadingEntry || cache[k.value] == FailedEntry))
    ensures ModalImage(cache, plan, day, mealType) == CardImage(cache, plan, day, mealType)
  {
  }

  /** The review shows the image the builder fetched for the slot: while
      the builder's request for it runs, nothing is printed; once it
      finishes, the printed image is the request's result, unless that
      result is empty or a sentinel text. */
  lemma PrintAcrossRequest(cache: ImageCache, plan: Plan, day: nat, mealType: string, result: Option<string>)
    requires Builder.RequestFor(plan, day, mealType) != []
    ensures var k := Builder.RequestFor(plan, day, mealType)[0].key;
      PrintImage(cache[k := LoadingEntry], plan, day, mealType).None?
    ensures var k := Builder.RequestFor(plan, day, mealType)[0].key;
      PrintImage(cache[k := Builder.Outcome(result)], plan, day, mealType)
      == if result.Some? && result.value != "" && result.value != LoadingEntry && result.value != FailedEntry
         then result else None
  {
  }

  /** A slot without a named meal shows no image anywhere, whatever the
      cache holds. */
  lemma UnnamedShowsNothing(cache: ImageCache, plan: Plan, day: nat, mealType: string)
    requires Builder.RequestFor(plan, day, mealType) == []
    ensures PrintImage(cache, plan, day, mealType).None?
    ensures CardImage(cache, plan, day, mealType).None? && ModalImage(cache, plan, day, mealType).None?
  {
  }
}
