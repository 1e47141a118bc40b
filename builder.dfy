/** The plan builder (components/Builder.tsx): the image cache keyed by day,
    label and meal name, the two steps of an image request, the scan that
    requests the images of the shown day, and the edits of one slot. */
module Builder {
  import opened Types
  import opened Strings
  import App
  import MealEditor
  import Fallback

  /** `${day}-${type}-${name}`: the text before its first '-' is the day in
      decimal, and the label, a '-' and the name follow that dash. */
  function CacheKey(day: nat, mealType: string, name: string): (k: string)
    ensures |k| == |NatToString(day)| + |mealType| + |name| + 2
    ensures IndexOf(k, '-', 0) == |NatToString(day)|
    ensures k[..|NatToString(day)|] == NatToString(day)
    ensures k[|NatToString(day)| + 1..] == mealType + "-" + name
  {
    var a := NatToString(day);
    assert '-' !in a by {
      assert forall i :: 0 <= i < |a| ==> '0' <= a[i] <= '9';
    }
    IndexOfAfter(a, mealType + "-" + name, '-');
    assert a + "-" + mealType + "-" + name == a + ['-'] + (mealType + "-" + name);
    a + "-" + mealType + "-" + name
  }

  /** For labels without '-', as the meal-type labels are, the key determines
      the day, the label and the meal name. */
  lemma CacheKeyInjective(d1: nat, t1: string, n1: string, d2: nat, t2: string, n2: string)
    requires '-' !in t1 && '-' !in t2
    requires CacheKey(d1, t1, n1) == CacheKey(d2, t2, n2)
    ensures d1 == d2 && t1 == t2 && n1 == n2
  {
    var a1, a2 := NatToString(d1), NatToString(d2);
    assert '-' !in a1 && '-' !in a2 by {
      assert forall i :: 0 <= i < |a1| ==> '0' <= a1[i] <= '9';
      assert forall i :: 0 <= i < |a2| ==> '0' <= a2[i] <= '9';
    }
    assert CacheKey(d1, t1, n1) == a1 + ['-'] + (t1 + ['-'] + n1);
    assert CacheKey(d2, t2, n2) == a2 + ['-'] + (t2 + ['-'] + n2);
    SplitAtFirst(a1, t1 + ['-'] + n1, a2, t2 + ['-'] + n2, '-');
    NatToStringInjective(d1, d2);
    SplitAtFirst(t1, n1, t2, n2, '-');
  }

  /** The guard of `generateImage`: an entry that is "loading" or any other
      non-empty text blocks a new request. Both sentinels are non-empty, so
      the explicit "loading" test adds nothing, and a failed image is not
      requested again while its key stays the same. */
  predicate Occupied(cache: ImageCache, key: string)
    ensures key in cache && (cache[key] == LoadingEntry || cache[key] == FailedEntry) ==> Occupied(cache, key)
  {
    key in cache && cache[key] != ""
  }

  /** What the second step of `generateImage` stores: the image, or "failed"
      when the request gave nothing. */
  function Outcome(result: Option<string>): (v: string)
    ensures v != ""
    ensures result.Some? && result.value != "" ==> v == result.value
    ensures !(result.Some? && result.value != "") ==> v == FailedEntry
  {
    if result.Some? && result.value != "" then result.value else FailedEntry
  }

  /** One image request of a scan. */
  datatype ImageRequest = ImageRequest(key: string, name: string, description: string)

  /** The slot of `mealType` on day `day`, if both exist. */
  function SlotAt(plan: Plan, day: nat, mealType: string): (r: Option<Slot>)
    ensures r.Some? <==> day < |plan| && mealType in plan[day].slots
    ensures r.Some? ==> r.value == plan[day].slots[mealType]
  {
    if day < |plan| then Lookup(plan[day], mealType) else None
  }

  /** The request the scan considers for one label: its meal, when the slot
      holds a meal with a name. */
  function RequestFor(plan: Plan, day: nat, mealType: string): (r: seq<ImageRequest>)
    ensures |r| <= 1
    ensures r != [] <==> (var s := SlotAt(plan, day, mealType); s.Some? && s.value.Filled? && s.value.meal.name != "")
    ensures r != [] ==> r[0].key == CacheKey(day, mealType, r[0].name)
    ensures r != [] ==> r[0].name == SlotAt(plan, day, mealType).value.meal.name
  {
    match SlotAt(plan, day, mealType)
    case Some(Filled(m)) =>
      if m.name != "" then [ImageRequest(CacheKey(day, mealType, m.name), m.name, m.description)] else []
    case _ => []
  }

  /** The requests one scan of day `day` considers, in label order: at most
      one per label. */
  function Named(plan: Plan, day: nat, types: seq<string>): (r: seq<ImageRequest>)
    ensures |r| <= |types|
    ensures forall q :: q in r ==> q.name != ""
  {
    if types == [] then []
    else
      var n := |types| - 1;
      Named(plan, day, types[..n]) + RequestFor(plan, day, types[n])
  }

  /** Every considered request is keyed by its day, one of the labels and
      its meal's name. */
  lemma {:induction false} NamedKeys(plan: Plan, day: nat, types: seq<string>, q: ImageRequest)
    requires q in Named(plan, day, types)
    ensures exists t :: t in types && q.key == CacheKey(day, t, q.name)
  {
    var n := |types| - 1;
    if q in Named(plan, day, types[..n]) {
      NamedKeys(plan, day, types[..n], q);
      var t :| t in types[..n] && q.key == CacheKey(day, t, q.name);
      assert t in types;
    } else {
      assert q in RequestFor(plan, day, types[n]);
      assert types[n] in types;
    }
  }

  /** The considered requests whose entry the scan sees free. */
  function Pending(cache: ImageCache, reqs: seq<ImageRequest>): (r: seq<ImageRequest>)
    ensures |r| <= |reqs|
    ensures forall q :: q in r ==> q in reqs && !Occupied(cache, q.key)
    ensures forall q :: q in reqs && !Occupied(cache, q.key) ==> q in r
  {
    if reqs == [] then []
    else
      var n := |reqs| - 1;
      var q := reqs[n];
      assert forall x :: x in reqs ==> x in reqs[..n] || x == q;
      Pending(cache, reqs[..n]) + (if Occupied(cache, q.key) then [] else [q])
  }

  /** The cache after the first step of each request in `reqs`. */
  function MarkLoading(cache: ImageCache, reqs: seq<ImageRequest>): (r: ImageCache)
    ensures forall k :: k in cache ==> k in r && (r[k] == cache[k] || r[k] == LoadingEntry)
    ensures forall q :: q in reqs ==> q.key in r && r[q.key] == LoadingEntry
  {
    if reqs == [] then cache
    else
      var n := |reqs| - 1;
      assert forall x :: x in reqs ==> x in reqs[..n] || x == reqs[n];
      MarkLoading(cache, reqs[..n])[reqs[n].key := LoadingEntry]
  }

  lemma PendingSnoc(cache: ImageCache, reqs: seq<ImageRequest>, q: ImageRequest)
    ensures Pending(cache, reqs + [q]) == Pending(cache, reqs) + (if Occupied(cache, q.key) then [] else [q])
  {
    assert (reqs + [q])[..|reqs|] == reqs;
  }

  /** One more label adds its request to the pending ones when the scan
      sees its entry free. */
  lemma PendingAdvance(cache: ImageCache, plan: Plan, day: nat, types: seq<string>, j: nat)
    requires j < |types|
    ensures RequestFor(plan, day, types[j]) != [] && !Occupied(cache, RequestFor(plan, day, types[j])[0].key) ==>
      Pending(cache, Named(plan, day, types[..j + 1]))
      == Pending(cache, Named(plan, day, types[..j])) + [RequestFor(plan, day, types[j])[0]]
    ensures RequestFor(plan, day, types[j]) == [] || Occupied(cache, RequestFor(plan, day, types[j])[0].key) ==>
      Pending(cache, Named(plan, day, types[..j + 1])) == Pending(cache, Named(plan, day, types[..j]))
  {
    assert types[..j + 1][..j] == types[..j];
    var before := Named(plan, day, types[..j]);
    var here := RequestFor(plan, day, types[j]);
    assert Named(plan, day, types[..j + 1]) == before + here;
    if here != [] {
      assert here == [here[0]];
      PendingSnoc(cache, before, here[0]);
      var p := Pending(cache, before);
      assert p + [] == p;
    } else {
      assert before + here == before;
    }
  }

  /** One step of the scan keeps its two invariants: the requests started
      are the pending ones so far, and the cache marks them loading. */
  lemma ScanAdvance(seen: ImageCache, plan: Plan, day: nat, types: seq<string>, j: nat,
                    requests: seq<ImageRequest>, cache: ImageCache)
    requires j < |types|
    requires requests == Pending(seen, Named(plan, day, types[..j]))
    requires cache == MarkLoading(seen, requests)
    ensures RequestFor(plan, day, types[j]) != [] && !Occupied(seen, RequestFor(plan, day, types[j])[0].key) ==>
      && requests + [RequestFor(plan, day, types[j])[0]] == Pending(seen, Named(plan, day, types[..j + 1]))
      && cache[RequestFor(plan, day, types[j])[0].key := LoadingEntry]
         == MarkLoading(seen, requests + [RequestFor(plan, day, types[j])[0]])
    ensures RequestFor(plan, day, types[j]) == [] || Occupied(seen, RequestFor(plan, day, types[j])[0].key) ==>
      requests == Pending(seen, Named(plan, day, types[..j + 1]))
  {
    PendingAdvance(seen, plan, day, types, j);
    var here := RequestFor(plan, day, types[j]);
    if here != [] {
      MarkLoadingSnoc(seen, requests, here[0]);
    }
  }

  lemma MarkLoadingSnoc(cache: ImageCache, reqs: seq<ImageRequest>, q: ImageRequest)
    ensures MarkLoading(cache, reqs + [q]) == MarkLoading(cache, reqs)[q.key := LoadingEntry]
  {
    assert (reqs + [q])[..|reqs|] == reqs;
  }

  /** Once a scan has started its requests, every entry it considered is
      occupied, so the same scan again requests nothing. */
  lemma RescanIssuesNone(cache: ImageCache, reqs: seq<ImageRequest>)
    ensures Pending(MarkLoading(cache, Pending(cache, reqs)), reqs) == []
  {
    var after := MarkLoading(cache, Pending(cache, reqs));
    forall q | q in reqs
      ensures Occupied(after, q.key)
    {
      StartedOccupied(cache, reqs, q);
    }
    PendingAllOccupied(after, reqs);
  }

  /** A considered entry is occupied once the scan's requests have started. */
  lemma StartedOccupied(cache: ImageCache, reqs: seq<ImageRequest>, q: ImageRequest)
    requires q in reqs
    ensures Occupied(MarkLoading(cache, Pending(cache, reqs)), q.key)
  {
    if !Occupied(cache, q.key) {
      assert q in Pending(cache, reqs);
    }
  }

  /** Nothing is pending when every entry is occupied. */
  lemma {:induction false} PendingAllOccupied(cache: ImageCache, reqs: seq<ImageRequest>)
    requires forall q :: q in reqs ==> Occupied(cache, q.key)
    ensures Pending(cache, reqs) == []
  {
    if reqs != [] {
      var n := |reqs| - 1;
      assert reqs[n] in reqs;
      assert forall q :: q in reqs[..n] ==> q in reqs;
      PendingAllOccupied(cache, reqs[..n]);
    }
  }

  /** No two requests share a key. */
  predicate KeysDistinct(reqs: seq<ImageRequest>) {
    forall i, j :: 0 <= i < j < |reqs| ==> reqs[i].key != reqs[j].key
  }

  /** Two considered requests of one scan never share a key: the labels are
      distinct and contain no '-'. */
  lemma {:induction false} NamedKeysDistinct(plan: Plan, day: nat, types: seq<string>)
    requires Distinct(types)
    requires forall i :: 0 <= i < |types| ==> '-' !in types[i]
    ensures KeysDistinct(Named(plan, day, types))
  {
    if types != [] {
      var n := |types| - 1;
      var init := Named(plan, day, types[..n]);
      var last := RequestFor(plan, day, types[n]);
      assert Distinct(types[..n]);
      NamedKeysDistinct(plan, day, types[..n]);
      if last != [] {
        NewKeyIsFresh(plan, day, types, last[0]);
      }
      var r := init + last;
      forall i, j | 0 <= i < j < |r|
        ensures r[i].key != r[j].key
      {
        if j < |init| {
          assert r[i] == init[i] && r[j] == init[j];
        } else {
          assert r[j] == last[0] && r[i] == init[i] && init[i] in init;
        }
      }
    }
  }

  /** The request of the last label has a key none of the earlier labels'
      requests has. */
  lemma NewKeyIsFresh(plan: Plan, day: nat, types: seq<string>, q: ImageRequest)
    requires Distinct(types) && types != []
    requires forall i :: 0 <= i < |types| ==> '-' !in types[i]
    requires q.key == CacheKey(day, types[|types| - 1], q.name)
    ensures forall x :: x in Named(plan, day, types[..|types| - 1]) ==> x.key != q.key
  {
    var n := |types| - 1;
    forall x | x in Named(plan, day, types[..n])
      ensures x.key != q.key
    {
      NamedKeys(plan, day, types[..n], x);
      var t :| t in types[..n] && x.key == CacheKey(day, t, x.name);
      var k :| 0 <= k < n && types[..n][k] == t;
      if x.key == q.key {
        CacheKeyInjective(day, t, x.name, day, types[n], q.name);
      }
    }
  }

  /** Dropping the occupied entries keeps the keys distinct. */
  lemma {:induction false} PendingKeysDistinct(cache: ImageCache, reqs: seq<ImageRequest>)
    requires KeysDistinct(reqs)
    ensures KeysDistinct(Pending(cache, reqs))
  {
    if reqs != [] {
      var n := |reqs| - 1;
      var q := reqs[n];
      assert KeysDistinct(reqs[..n]);
      PendingKeysDistinct(cache, reqs[..n]);
      var init := Pending(cache, reqs[..n]);
      forall x | x in init
        ensures x.key != q.key
      {
        var k :| 0 <= k < n && reqs[..n][k] == x;
        assert reqs[k] == x;
      }
      var r := init + (if Occupied(cache, q.key) then [] else [q]);
      forall i, j | 0 <= i < j < |r|
        ensures r[i].key != r[j].key
      {
        if j < |init| {
          assert r[i] == init[i] && r[j] == init[j];
        } else {
          assert r[j] == q && r[i] == init[i] && init[i] in init;
        }
      }
    }
  }

  /** One scan of the shown day requests each image at most once. */
  lemma ScanRequestsDistinct(cache: ImageCache, plan: Plan, day: nat, meals: int)
    ensures KeysDistinct(Pending(cache, Named(plan, day, App.MealTypes(meals))))
  {
    NamedKeysDistinct(plan, day, App.MealTypes(meals));
    PendingKeysDistinct(cache, Named(plan, day, App.MealTypes(meals)));
  }

  /** `plan[i][t] = s`, creating day `i` first when it is one past the end. */
  function SetSlot(plan: Plan, i: nat, mealType: string, s: Slot): (r: Plan)
    requires i <= |plan|
    ensures |r| == if i < |plan| then |plan| else |plan| + 1
    ensures SlotAt(r, i, mealType) == Some(s)
    ensures forall d, t :: d != i || t != mealType ==> SlotAt(r, d, t) == SlotAt(plan, d, t)
  {
    if i < |plan| then plan[i := Put(plan[i], mealType, s)]
    else plan + [Put(EmptyDay, mealType, s)]
  }

  /** How `oldMeal.name` prints in a template literal: the meal's name, and
      "undefined" for the empty record `{}` or a missing slot. */
  function NameText(s: Option<Slot>): (r: string)
    ensures s.Some? && s.value.Filled? ==> r == s.value.meal.name
    ensures !(s.Some? && s.value.Filled?) ==> r == "undefined"
  {
    if s.Some? && s.value.Filled? then s.value.meal.name else "undefined"
  }

  /** The key `saveMeal` drops for an empty or missing slot is the slot's
      "...-undefined" key, which is the key of no image of that slot except
      one of a meal literally named "undefined". */
  lemma UndefinedKeyHarmless(day: nat, mealType: string, s: Option<Slot>, name: string)
    requires !(s.Some? && s.value.Filled?)
    requires '-' !in mealType && name != "undefined"
    ensures CacheKey(day, mealType, NameText(s)) != CacheKey(day, mealType, name)
  {
    if CacheKey(day, mealType, NameText(s)) == CacheKey(day, mealType, name) {
      CacheKeyInjective(day, mealType, NameText(s), day, mealType, name);
    }
  }

  /** A slot's contribution to the day's total: `Number(meal?.calories) || 0`. */
  function SlotCalories(s: Option<Slot>): int {
    if s.Some? && s.value.Filled? then s.value.meal.calories else 0
  }

  /** The calories of the labels `types` on one day: never negative when no
      label's meal has negative calories. */
  function DayTotal(d: DayPlan, types: seq<string>): (r: int)
    ensures (forall t :: t in types ==> SlotCalories(Lookup(d, t)) >= 0) ==> r >= 0
  {
    if types == [] then 0
    else
      var n := |types| - 1;
      assert forall t :: t in types[..n] ==> t in types;
      assert types[n] in types;
      DayTotal(d, types[..n]) + SlotCalories(Lookup(d, types[n]))
  }

  /** `totalCaloriesToday`: the sum over the labels, 0 when the day is absent. */
  function TotalCaloriesToday(plan: Plan, day: nat, types: seq<string>): (r: int)
    ensures day >= |plan| ==> r == 0
    ensures day < |plan| && (forall t :: t in types ==> SlotCalories(Lookup(plan[day], t)) >= 0) ==> r >= 0
  {
    if day < |plan| then DayTotal(plan[day], types) else 0
  }

  /** When every label contributes `c`, the total is `c` per label. */
  lemma {:induction false} DayTotalUniform(d: DayPlan, types: seq<string>, c: int)
    requires forall t :: t in types ==> SlotCalories(Lookup(d, t)) == c
    ensures DayTotal(d, types) == |types| * c
  {
    if types != [] {
      var n := |types| - 1;
      assert forall t :: t in types[..n] ==> t in types;
      DayTotalUniform(d, types[..n], c);
      assert types[n] in types;
      assert DayTotal(d, types) == n * c + c;
      assert |types| * c == (n + 1) * c == n * c + c;
    }
  }

  /** Changing a label outside `types` leaves the total alone. */
  lemma {:induction false} DayTotalPutOutside(d: DayPlan, types: seq<string>, mealType: string, s: Slot)
    requires mealType !in types
    ensures DayTotal(Put(d, mealType, s), types) == DayTotal(d, types)
  {
    if types != [] {
      var n := |types| - 1;
      assert mealType !in types[..n];
      DayTotalPutOutside(d, types[..n], mealType, s);
    }
  }

  /** Changing the slot of one label moves the total by the difference of
      the two slots' calories. */
  lemma {:induction false} DayTotalPut(d: DayPlan, types: seq<string>, mealType: string, s: Slot)
    requires Distinct(types) && mealType in types
    ensures DayTotal(Put(d, mealType, s), types)
      == DayTotal(d, types) - SlotCalories(Lookup(d, mealType)) + SlotCalories(Some(s))
  {
    var n := |types| - 1;
    var d' := Put(d, mealType, s);
    assert DayTotal(d', types) == DayTotal(d', types[..n]) + SlotCalories(Lookup(d', types[n]));
    assert DayTotal(d, types) == DayTotal(d, types[..n]) + SlotCalories(Lookup(d, types[n]));
    assert Distinct(types[..n]);
    if types[n] == mealType {
      assert mealType !in types[..n];
      DayTotalPutOutside(d, types[..n], mealType, s);
    } else {
      assert mealType in types[..n];
      DayTotalPut(d, types[..n], mealType, s);
    }
  }

  /** The total of a day in a fallback plan: the rounded per-meal calories
      once per label. */
  lemma FallbackDayTotal(data: ConfigData, aiPlan: Option<Plan>, fallback: seq<seq<Meal>>, plan: Plan, day: nat)
    requires App.UsesFallback(data, aiPlan)
    requires App.Materialised(data, aiPlan, fallback, plan) && App.FromGenerator(data, fallback)
    requires day < |plan|
    ensures TotalCaloriesToday(plan, day, App.MealTypes(data.meals))
      == |App.MealTypes(data.meals)| * App.CalPerMeal(data.calories, data.meals)
  {
    var types := App.MealTypes(data.meals);
    forall t | t in types
      ensures SlotCalories(Lookup(plan[day], t)) == App.CalPerMeal(data.calories, data.meals)
    {
      App.FallbackPlanFilled(data, aiPlan, fallback, plan, day, t);
    }
    DayTotalUniform(plan[day], types, App.CalPerMeal(data.calories, data.meals));
  }

  /** Every day of a manual plan totals 0. */
  lemma ManualDayTotal(data: ConfigData, aiPlan: Option<Plan>, fallback: seq<seq<Meal>>, plan: Plan, day: nat)
    requires data.mode == Manual
    requires App.Materialised(data, aiPlan, fallback, plan)
    ensures TotalCaloriesToday(plan, day, App.MealTypes(data.meals)) == 0
  {
    if day < |plan| {
      var types := App.MealTypes(data.meals);
      forall t | t in types
        ensures SlotCalories(Lookup(plan[day], t)) == 0
      {
        if t in plan[day].slots {
          App.ManualPlanEmpty(data, aiPlan, fallback, plan, day, t);
        }
      }
      DayTotalUniform(plan[day], types, 0);
    }
  }

  /** The slot being edited and the editor's starting draft. */
  datatype EditTarget = EditTarget(dayIndex: nat, mealType: string, draft: MealEditor.Draft)

  /** The builder's own state cells: the shown day and the open editor. */
  class BuilderView {
    var day: nat
    var editing: Option<EditTarget>

    constructor ()
      ensures day == 0 && editing.None?
    {
      day := 0;
      editing := None;
    }

    /** A day tab. */
    method SelectDay(store: App.Store, i: nat)
      requires i < |store.plan|
      modifies this`day
      ensures day == i
    {
      day := i;
    }

    /** `handleEdit`: opens the editor on the shown day's slot. */
    method Edit(store: App.Store, mealType: string)
      modifies this`editing
      ensures editing == Some(EditTarget(day, mealType, MealEditor.DraftOfSlot(SlotAt(store.plan, day, mealType))))
    {
      editing := Some(EditTarget(day, mealType, MealEditor.DraftOfSlot(SlotAt(store.plan, day, mealType))));
    }

    /** The first step of `generateImage`: an occupied entry issues nothing;
        otherwise the entry becomes "loading" and the request is issued. */
    method StartImage(store: App.Store, key: string) returns (issued: bool)
      modifies store`imageCache
      ensures issued <==> !Occupied(old(store.imageCache), key)
      ensures issued ==> store.imageCache == old(store.imageCache)[key := LoadingEntry]
      ensures !issued ==> store.imageCache == old(store.imageCache)
    {
      issued := !Occupied(store.imageCache, key);
      if issued {
        store.imageCache := store.imageCache[key := LoadingEntry];
      }
    }

    /** The second step of `generateImage`, with the request's result (None
        when it failed): the entry holds the image or "failed", and no other
        entry changes. */
    method FinishImage(store: App.Store, key: string, result: Option<string>)
      modifies store`imageCache
      ensures store.imageCache == old(store.imageCache)[key := Outcome(result)]
      ensures Occupied(store.imageCache, key)
      ensures result != Some(LoadingEntry) ==> store.imageCache[key] != LoadingEntry
    {
      store.imageCache := store.imageCache[key := Outcome(result)];
    }

    /** The effect that scans the shown day: every slot with a named meal
        whose entry the render-time cache shows free starts its request. */
    method ScanDay(store: App.Store) returns (requests: seq<ImageRequest>)
      modifies store`imageCache
      ensures requests == Pending(old(store.imageCache), Named(store.plan, day, App.MealTypes(store.data.meals)))
      ensures store.imageCache == MarkLoading(old(store.imageCache), requests)
    {
      var types := App.MealTypes(store.data.meals);
      var plan, d, seen := store.plan, day, store.imageCache;
      var cache := seen;
      requests := [];
      var j := 0;
      while j < |types|
        invariant 0 <= j <= |types|
        invariant requests == Pending(seen, Named(plan, d, types[..j]))
        invariant cache == MarkLoading(seen, requests)
      {
        var here := RequestFor(plan, d, types[j]);
        ScanAdvance(seen, plan, d, types, j, requests, cache);
        if here != [] && !Occupied(seen, here[0].key) {
          var q := here[0];
          requests := requests + [q];
          cache := cache[q.key := LoadingEntry];
        }
        j := j + 1;
      }
      assert types[..|types|] == types;
      store.imageCache := cache;
    }

    /** `handleDeleteMeal` on the shown day, `confirmed` being the answer to
        the confirmation: a present slot becomes `{}`, and the image entry of
        a named meal is removed. */
    method DeleteMeal(store: App.Store, mealType: string, confirmed: bool)
      modifies store`plan, store`imageCache
      ensures var s := SlotAt(old(store.plan), day, mealType);
        if confirmed && s.Some? then
          && store.plan == SetSlot(old(store.plan), day, mealType, Empty)
          && store.imageCache ==
               if s.value.Filled? && s.value.meal.name != ""
               then old(store.imageCache) - {CacheKey(day, mealType, s.value.meal.name)}
               else old(store.imageCache)
        else store.plan == old(store.plan) && store.imageCache == old(store.imageCache)
    {
      if !confirmed {
        return;
      }
      var s := SlotAt(store.plan, day, mealType);
      if s.Some? {
        if s.value.Filled? && s.value.meal.name != "" {
          store.imageCache := store.imageCache - {CacheKey(day, mealType, s.value.meal.name)};
        }
        store.plan := SetSlot(store.plan, day, mealType, Empty);
      }
    }

    /** `saveMeal`: the meal goes into the edited slot, creating its day when
        that is one past the end; unless the slot already held a meal of the
        same name, the entry of the old name is removed (for an empty or
        missing slot that name prints as "undefined"); the editor closes. */
    method SaveMeal(store: App.Store, meal: Meal)
      requires editing.Some? && editing.value.dayIndex <= |store.plan|
      modifies store`plan, store`imageCache, this`editing
      ensures var e := old(editing.value);
        var s := SlotAt(old(store.plan), e.dayIndex, e.mealType);
        && store.plan == SetSlot(old(store.plan), e.dayIndex, e.mealType, Filled(meal))
        && store.imageCache ==
             if s.Some? && s.value.Filled? && s.value.meal.name == meal.name
             then old(store.imageCache)
             else old(store.imageCache) - {CacheKey(e.dayIndex, e.mealType, NameText(s))}
      ensures store.imageCache.Keys <= old(store.imageCache).Keys
      ensures editing.None?
    {
      var e := editing.value;
      var s := SlotAt(store.plan, e.dayIndex, e.mealType);
      if !(s.Some? && s.value.Filled? && s.value.meal.name == meal.name) {
        store.imageCache := store.imageCache - {CacheKey(e.dayIndex, e.mealType, NameText(s))};
      }
      store.plan := SetSlot(store.plan, e.dayIndex, e.mealType, Filled(meal));
      editing := None;
    }

    /** `handleRegenerateMeal` on the shown day: the slot takes the AI's meal,
        or, when the AI gives none, the meal the fallback generator builds for
        the label at the rounded per-meal calories with the random picks
        `draw`; the image cache is left alone. */
    method RegenerateMeal(store: App.Store, mealType: string, ai: Option<Meal>, draw: Fallback.Draw)
      requires day <= |store.plan|
      requires ai.None? ==> store.data.meals > 0 && Fallback.DrawFits(mealType, store.data.dietStyle, draw)
      modifies store`plan
      ensures ai.Some? ==> store.plan == SetSlot(old(store.plan), day, mealType, Filled(ai.value))
      ensures ai.None? ==>
        store.plan == SetSlot(old(store.plan), day, mealType,
          Filled(Fallback.FallbackMeal(mealType, App.CalPerMeal(store.data.calories, store.data.meals), store.data.dietStyle, draw)))
      ensures ai.None? ==> var s := SlotAt(store.plan, day, mealType);
        && s.Some? && s.value.Filled?
        && s.value.meal.calories == App.CalPerMeal(store.data.calories, store.data.meals)
        && Fallback.Generated(s.value.meal, mealType, App.CalPerMeal(store.data.calories, store.data.meals), store.data.dietStyle)
    {
      var meal: Meal;
      if ai.Some? {
        meal := ai.value;
      } else {
        meal := Fallback.FallbackMeal(mealType, App.CalPerMeal(store.data.calories, store.data.meals), store.data.dietStyle, draw);
      }
      store.plan := SetSlot(store.plan, day, mealType, Filled(meal));
    }
  }
}
