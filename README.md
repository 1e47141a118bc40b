# Meal-plan wizard: a Dafny model

This is a model of the core of a browser wizard that nutritionists use to
write meal plans. The wizard has four steps: intro, config, builder and
review.

- **App.** It chooses AI or manual mode. It derives the meal-type labels
  ("Desayuno", "Almuerzo", "Merienda", "Cena", "Recena") from the number of
  meals per day. It materialises the plan: the AI plan, the local fallback
  generator, or empty slots. It resets everything on "home".
- **Builder.** It shows one day at a time and requests one image per named
  meal. The image cache is keyed `day-label-name` and holds the sentinels
  `loading` and `failed`. It totals the day's calories, deletes, edits and
  regenerates meals, and drops image-cache entries that a rename makes stale.
- **MealEditor.** It edits a draft field by field. It merges an AI answer
  into the draft and fills in defaults on save.
- **Review.** It parses the shopping list into a checklist of categories. It
  builds a backup shopping list when the AI gives none. It renders the
  ingredients and instructions for the print view and the recipe modal, and
  picks which image each of them shows.
- **Fallback generator** (`lib/data.ts`). It builds a meal from a fixed
  catalogue: a breakfast for breakfast labels, otherwise a protein, a carb
  and a vegetable. Vegetarian diets use the vegetarian catalogues.

Modules:

- `Types` (types.dfy): the data model of `types.ts`. A day is an object, so
  it is kept with its key insertion order.
- `Strings` (strings.dfy): the JavaScript string operations the core uses:
  `trim`, `split`, `join`, `includes`, `toLowerCase`, and number-to-text in
  template literals.
- `Fallback` (fallback.dfy): `lib/data.ts`.
- `App` (app.dfy): `App.tsx`. The React state cells are fields of the class
  `Store`, and each handler is a method on it.
- `Builder` (builder.dfy): `components/Builder.tsx`, as the class
  `BuilderView`.
- `MealEditor` (mealeditor.dfy): `components/MealEditor.tsx`, as the class
  `EditorState`.
- `Review` (review.dfy): the shopping-list parser of
  `components/Review.tsx`. It is given both as a function and as the
  imperative loop of the source.
- `ReviewView` (reviewview.dfy): the rest of `components/Review.tsx`: the
  backup list, `genList`, the print and modal lists, and image selection.

How the environment is modelled:

- `Math.random` is an explicit `Draw` of catalogue indices. The plan's
  fallback meals are inputs tied to the generator by the ghost predicate
  `Fallback.Generated`: some draw yields them.
- AI answers, the user's `confirm` and the results of image requests are
  parameters.
- Numbers are mathematical integers. `Math.round(calories / meals)` is
  written out exactly for `meals > 0`.

## Model

| member | source | states |
|---|---|---|
| App.MealTypes | App.tsx:109-114 | the labels for a meal count are pairwise distinct and contain no '-' |
| App.MealTypesSplice | App.tsx:109-114 | the two splices give three labels up to three meals, four at four meals and five from five on, always opening with "Desayuno", "Almuerzo" |
| App.MealTypesByCount | App.tsx:109-114 | up to 3 meals: Desayuno, Almuerzo, Cena; at 4, Merienda goes before Cena; from 5 on, Recena is appended last |
| App.LabelsWellFormed | App.tsx:109-114 | the spliced label lists have no duplicate and no dash, so the labels can be cache-key parts |
| App.DayCount | App.tsx:119 | 0 days (falsy) gives 3 days, a positive count is kept, a negative one gives no days |
| App.CalPerMeal | App.tsx:125 | the per-meal calories are `calories / meals` rounded to the nearest integer, half up (bounds within one half) |
| App.DefaultCalPerMeal | App.tsx:29-32 | the initial 2000 kcal over 3 meals gives 667 kcal per meal |
| App.BuildDay | App.tsx:127-131 | the `forEach` fills a day object that holds exactly the given slot under each label, with the keys in label order |
| App.Materialised | App.tsx:118-144 | a materialised plan is never empty when the day count is not negative: an accepted AI plan is non-empty, and a 0 day count gives 3 days |
| App.GeneratePlan | App.tsx:118-144 | the plan is the AI plan when AI mode returns a non-empty one; otherwise it is one day per day count with a fallback meal (AI mode) or an empty slot (manual mode) per label |
| App.FallbackPlanFilled | App.tsx:122-132 | in a fallback plan every label of every day holds a meal the generator can return at the rounded per-meal calories |
| App.ManualPlanEmpty | App.tsx:136-143 | a manual plan has the configured number of days, and each slot is an empty `{}` under one of the labels |
| App.Store.constructor | App.tsx:29-32 | the wizard starts at the intro with the initial configuration, no plan, an empty image cache and no shopping list |
| App.Store.GoHome | App.tsx:151-167 | every state cell returns to its initial value, and a reset wizard is left unchanged |
| App.Store.SelectMode | App.tsx:172 | the intro sets only the mode and moves to config |
| App.Store.StartGeneratePlan | App.tsx:117 | generation raises the loading flag |
| App.Store.FinishGeneratePlan | App.tsx:146-148 | the materialised plan is stored, loading drops and the step becomes builder; config, cache and list are kept |
| App.Store.BuilderBack | App.tsx:176 | builder "back" goes to config |
| App.Store.BuilderNext | App.tsx:176 | builder "next" goes to review |
| App.Store.ReviewBack | App.tsx:178 | review "back" goes to builder |
| App.Store.RenderStep | App.tsx:169-184 | an unknown step resets the wizard; a known step changes nothing |
| Builder.CacheKeyInjective | components/Builder.tsx:57 | for dash-free labels, equal cache keys mean the same day, label and meal name |
| Builder.CacheKey | components/Builder.tsx:57 | the key `${day}-${type}-${name}` has the day's decimal text before its first '-', and the label, a '-' and the name after that dash |
| Builder.Occupied | components/Builder.tsx:58 | a "loading" or "failed" entry blocks a new request, so the explicit "loading" test is redundant and a failed image is not requested again |
| Builder.Outcome | components/Builder.tsx:64 | what the second cache write stores is never empty: the image when the request returned a non-empty one, "failed" when it returned nothing or an empty text |
| Builder.SlotAt | components/Builder.tsx:166 | `plan[day]?.[type]` is defined exactly when the day exists and has the label |
| Builder.RequestFor | components/Builder.tsx:70-74 | a slot triggers at most one image request, exactly when it holds a meal with a name, and the request's key is that slot's cache key |
| Builder.Named | components/Builder.tsx:70-75 | the `forEach` considers at most one request per label, and each has a non-empty meal name |
| Builder.Pending | components/Builder.tsx:58 | the requests that pass the guard are exactly those whose key has no truthy cache entry |
| Builder.MarkLoading | components/Builder.tsx:59 | every started request's key maps to "loading", and every other entry is kept |
| Builder.RescanIssuesNone | components/Builder.tsx:58-59 | running the scan again on the cache it produced starts no request |
| Builder.ScanRequestsDistinct | components/Builder.tsx:67-76 | one scan never starts two requests for the same key |
| Builder.NamedKeysDistinct | components/Builder.tsx:57 | for distinct dash-free labels, the requests of one day have pairwise different keys |
| Builder.SetSlot | components/Builder.tsx:119-120 | writing a slot, adding the day if missing, changes only that day and label |
| Builder.NameText | components/Builder.tsx:108-111 | `oldMeal.name` prints as the meal's name, and as "undefined" for an empty `{}` or a missing slot |
| Builder.UndefinedKeyHarmless | components/Builder.tsx:108-116 | the "...-undefined" key dropped for an empty or missing slot is not the key of any image of that slot, except a meal literally named "undefined" |
| Builder.DayTotal | components/Builder.tsx:50-53 | the `reduce` over the labels is never negative when no label's meal has negative calories |
| Builder.TotalCaloriesToday | components/Builder.tsx:47-54 | a missing day totals 0, and a present one is never negative when no meal has negative calories |
| Builder.DayTotalUniform | components/Builder.tsx:47-54 | when every label contributes c calories, the day's total is c times the number of labels |
| Builder.DayTotalPut | components/Builder.tsx:47-54 | replacing one label's slot changes the total by the new calories minus the old |
| Builder.FallbackDayTotal | components/Builder.tsx:47-54 | a day of a fallback plan totals the number of labels times the per-meal calories |
| Builder.ManualDayTotal | components/Builder.tsx:47-54 | a fresh manual plan totals 0 on every day |
| Builder.BuilderView.constructor | components/Builder.tsx:34-35 | the builder opens on day 0 with no meal being edited |
| Builder.BuilderView.SelectDay | components/Builder.tsx:157-158 | a day tab selects that day |
| Builder.BuilderView.Edit | components/Builder.tsx:78-84 | the editor opens on the current day and label, with the slot's meal as a draft, or with an empty name and description when the slot is missing |
| Builder.BuilderView.StartImage | components/Builder.tsx:56-59 | a request starts exactly when the key has no truthy entry, and then the key is marked "loading" |
| Builder.BuilderView.FinishImage | components/Builder.tsx:60-64 | the key then holds the image or "failed", so it is occupied and no longer loading |
| Builder.BuilderView.ScanDay | components/Builder.tsx:67-76 | the scan starts exactly the pending requests of the day's named meals, in label order, and marks each one loading |
| Builder.BuilderView.DeleteMeal | components/Builder.tsx:86-103 | after confirmation, a present slot becomes `{}` and a named meal's cache key is dropped; otherwise plan and cache stay as they were |
| Builder.BuilderView.SaveMeal | components/Builder.tsx:105-124 | the edited slot receives the meal; the old key is dropped unless the name is unchanged (an empty slot drops the `...-undefined` key); the editor closes |
| Builder.BuilderView.RegenerateMeal | components/Builder.tsx:126-149 | the slot receives the AI meal, or, when the AI gave none, the generator's meal for that label, the rounded `calories / meals` and the diet, whose calories are that rounded value; nothing else in the plan changes |
| MealEditor.DraftOf | components/MealEditor.tsx:9 | the editor's draft of a meal has the meal's name and keeps its cook time, present or absent |
| MealEditor.DraftOfSlot | components/Builder.tsx:82 | an empty slot gives a blank draft, a meal gives its draft, and a missing slot gives an empty name and description |
| MealEditor.Finalize | components/MealEditor.tsx:42-53 | each falsy field takes its default ("Sin nombre", "", 0, "", "", "N/A"), so the saved name is never empty |
| MealEditor.SaveUnchanged | components/MealEditor.tsx:42-53 | saving an unedited meal that has a name and a cook time returns it unchanged |
| MealEditor.SaveIdempotent | components/MealEditor.tsx:42-53 | saving a saved meal again changes nothing |
| MealEditor.Flatten | components/MealEditor.tsx:27-28 | an array field is joined by '\n', so splitting the text at '\n' gives the items back; a string is kept |
| MealEditor.Merge | components/MealEditor.tsx:23-29 | the AI meal's fields override the draft, with arrays flattened to text; the draft's cook time survives only when the AI gives none |
| MealEditor.MergeOverrides | components/MealEditor.tsx:23-29 | the merge result depends on the previous draft only through its cook time |
| MealEditor.Apply | components/MealEditor.tsx:55-57 | an input change sets exactly the named field |
| MealEditor.ApplyChangesOneField | components/MealEditor.tsx:55-57 | an input change alters at most one field of the draft |
| MealEditor.EditorState.constructor | components/MealEditor.tsx:9-10 | the editor starts with the given draft and not filling |
| MealEditor.EditorState.InputChange | components/MealEditor.tsx:55-57 | the draft becomes the edited draft, which differs in at most one field |
| MealEditor.EditorState.BeginAiFill | components/MealEditor.tsx:14-19 | without a name no request is made; otherwise the name is sent and the filling flag is raised |
| MealEditor.EditorState.CompleteAiFill | components/MealEditor.tsx:20-39 | an answer is merged into the draft, a failure leaves the draft alone, and the filling flag drops on both paths |
| MealEditor.EditorState.Save | components/MealEditor.tsx:42-53 | the saved meal is the finalized draft and has a name |
| Fallback.FallbackMeal | lib/data.ts:21-55 | the generated meal has the requested calories and a name; a breakfast is the drawn catalogue breakfast with cook time "10 min"; a dish has the fixed description and instructions and cook time "20-30 min" |
| Fallback.GeneratedMeal | lib/data.ts:21-55 | any meal the generator can return has these properties, and a breakfast's name is one of the catalogue's names for the diet |
| Fallback.GeneratorTotal | lib/data.ts:21-55 | for every label, calorie count and diet, the generator can return some meal |
| Fallback.ProteinCatalogues | lib/data.ts:5 | every protein of either catalogue is one trimmed line without "con", so stripping `/con.*$/` and trimming leaves it whole |
| Fallback.CarbsShape | lib/data.ts:6 | every carb starts with "con " followed by a trimmed one-line word |
| Fallback.VeggiesShape | lib/data.ts:7 | every vegetable starts with "y " followed by a trimmed one-line word |
| Fallback.DishIngredientsOf | lib/data.ts:39-45 | the dish ingredients are the protein, the carb and vegetable without their connectors, then oil, then salt and pepper |
| Fallback.CutConTail | lib/data.ts:40 | `replace(/con.*$/, '')` keeps a prefix of the text, and the whole text when "con" does not occur |
| Fallback.DropConOrY | lib/data.ts:41 | removing the first "con " or "y " takes away 4, 2 or 0 characters: a leading "con " or "y " goes, and a text with neither is kept |
| Fallback.DropY | lib/data.ts:42 | `replace(/y /, '')` removes 2 or 0 characters: a leading "y " goes, and a text without "y " is kept |
| Fallback.DishIngredientLines | lib/data.ts:47-52 | a dish is named "protein carb vegetable", and its ingredient text splits into the five bulleted ingredients |
| Fallback.VegetarianaIsVeg | lib/data.ts:22 | "Vegetariana" selects the vegetarian catalogues |
| Fallback.VeganaIsVeg | lib/data.ts:22 | "Vegana" selects the vegetarian catalogues |
| Fallback.EquilibradaIsNotVeg | lib/data.ts:21-22 | the default diet "Equilibrada" selects the full catalogues |
| Fallback.OmnivoraIsNotVeg | App.tsx:30 | the initial diet "Omnívora" selects the full catalogues |
| Strings.SplitJoin | components/Review.tsx:60 | splitting a '\n'-join gives the pieces back when no piece contains '\n' |
| Strings.TrimChars | components/Review.tsx:20 | a trimmed string has only characters of the original |
| Strings.NatToStringInjective | components/Builder.tsx:57 | different day numbers print as different decimal texts |
| Review.Parse | components/Review.tsx:8-33 | an empty list text gives no categories |
| Review.DropPreamble | components/Review.tsx:11 | the first replacement keeps a suffix of the text: the whole text when it has no marker, otherwise the text from its first "### " or "**" on |
| Review.Scan | components/Review.tsx:12-15 | the split with the one-group category pattern gives an odd number of pieces: text, then title and text pairs |
| Review.Sections | components/Review.tsx:15 | `filter(Boolean)` leaves no empty section |
| Review.Items | components/Review.tsx:13-22 | a content yields an item exactly when it contains a '-', and never more items than characters |
| Review.Collect | components/Review.tsx:18-26 | the loop keeps at most one category per title and content pair |
| Review.CleanLines | components/Review.tsx:28 | the cleaned lines are at most the lines, none of them empty |
| Review.GeneralItems | components/Review.tsx:28 | the fallback category has at most one item per line of the text, none empty |
| Review.ParseKeeps | components/Review.tsx:18-30 | every category has a non-empty title and at least one item, except the single "General" category of the dash fallback |
| Review.CollectCategories | components/Review.tsx:18-26 | the loop over title/content pairs keeps exactly the pairs the specification function `Collect` keeps |
| Review.ParseShoppingList | components/Review.tsx:8-33 | the imperative parse returns the categories of `Parse` |
| Review.RenderParse | components/Review.tsx:8-33 | rendering categories with plain titles and items as "### title" headings and "- item" lines parses back to the same categories |
| Review.NoDashNoCategories | components/Review.tsx:22-27 | a list with no '-' yields no category, so the placeholder shows |
| Review.NoMarkersFallback | components/Review.tsx:27-30 | a list with a dash but no "###" or "**" marker becomes the single "General" category of its cleaned lines |
| Review.SaltAndPepper | components/Review.tsx:27-30 | "- Salt\n- Pepper" gives General: Salt, Pepper |
| Review.DashBeforeEmptyHeading | components/Review.tsx:15-16 | "-**" contains a dash yet yields no category: the empty-sections return comes before the dash fallback |
| Review.TwoCategories | components/Review.tsx:18-26 | two headed sections with bulleted items give two categories in order |
| Review.FruitsAndDairy | components/Review.tsx:8-33 | "### Fruits / - Apple / - Banana / ### Dairy / - Milk" gives Fruits: Apple, Banana and Dairy: Milk |
| Review.BoldAfterUnmarked | components/Review.tsx:11-26 | a "**" after text without marker characters, such as the "- " of a bullet, starts a category whose title is the rest of that line, closing "**" included |
| Review.BoldItemTomate | components/Review.tsx:8-33 | "- **Tomate** 1 kg" followed by "- Cebolla" gives one category "Tomate** 1 kg" holding only "Cebolla" |
| Review.ItemLinesItems | components/Review.tsx:13 | the items found in rendered "- item" lines are the items |
| ReviewView.BuildBackupList | components/Review.tsx:187-193 | the nested `forEach` builds exactly the backup list: the header, then one bold "Para name:" entry per meal with a name and ingredients, in day and key order |
| ReviewView.BackupList | components/Review.tsx:187-193 | the backup list opens with its "### " heading, so the parser drops nothing before it, and a plan without days gives the heading alone |
| ReviewView.BackupWithoutDashesShowsNothing | components/Review.tsx:187-194 | a backup list whose meals have no dash in name or ingredients parses to no category, so the checklist shows the placeholder |
| ReviewView.EmptySlotsShowNothing | components/Review.tsx:187-194 | an untouched manual plan also gives the placeholder |
| ReviewView.OneMealBackupParses | components/Review.tsx:187-194 | a one-meal backup list with bulleted ingredients parses to one category titled "Para name:**" (the closing bold marker stays in the title) holding the ingredients |
| ReviewView.ReviewScreen.constructor | components/Review.tsx:162 | the list is not loading at first |
| ReviewView.ReviewScreen.BeginGenList | components/Review.tsx:174-176 | a request is made exactly when the plan is non-empty, and then the loading flag is raised |
| ReviewView.ReviewScreen.FinishGenList | components/Review.tsx:178-197 | a non-empty AI answer becomes the shopping list, anything else the backup list, and loading drops |
| ReviewView.Lines | components/Review.tsx:60 | an array is its items, and a string gives at least one line |
| ReviewView.StripBullet | components/Review.tsx:61 | one leading "- " is removed, and only when present |
| ReviewView.ModalList | components/Review.tsx:59-62 | the modal lists at most one entry per line, and every line when none is empty |
| ReviewView.PrintIngredients | components/Review.tsx:138 | the print view lists one entry per line (per array item), each the line with at most a leading "- " removed |
| ReviewView.ModalWithinPrint | components/Review.tsx:59-62 | the modal's lines are a sub-list of the print view's, and the two are equal when no line is empty |
| ReviewView.BlankLineDiffers | components/Review.tsx:138 | for "a\n\nb" the print view lists a, empty, b while the modal lists a, b |
| ReviewView.FallbackDishModal | components/Review.tsx:59-62 | the modal lists a fallback dish's five ingredients without bullets |
| ReviewView.PrintInstructions | components/Review.tsx:142 | a string is trimmed, and an array is joined by '\n' so splitting gives the items back |
| ReviewView.PrintImage | components/Review.tsx:125-128 | for a slot with a named meal, the print view shows the entry under `${dayIndex}-${mealType}-${meal.name}` exactly when it is non-empty and neither "loading" nor "failed" |
| ReviewView.ShownKey | components/Review.tsx:226-227 | the review's key for a slot exists exactly when the builder requests an image for it, and is that request's key |
| ReviewView.CardImage | components/Review.tsx:227-233 | a card shows its entry only when it is non-empty and not a sentinel, and shows a spinner for a missing, empty, loading or failed entry |
| ReviewView.ModalImage | components/Review.tsx:72 | the modal shows the card's raw entry whenever it is non-empty |
| ReviewView.CardMatchesPrint | components/Review.tsx:227-232 | the review card shows the same image as the print view |
| ReviewView.ModalGetsSentinel | components/Review.tsx:241 | for a loading or failed entry, the modal is handed the sentinel text as its image while the card shows none |
| ReviewView.ModalMatchesCard | components/Review.tsx:72 | apart from the sentinels, the modal shows the card's image |
| ReviewView.UnnamedShowsNothing | components/Review.tsx:226-228 | a slot without a named meal shows no image in the card, the modal or the print view, whatever the cache holds |
| ReviewView.PrintAcrossRequest | components/Builder.tsx:59-64 | for the key of the builder's request for a slot, the print view shows nothing while the request runs, and afterwards the result unless it is empty or a sentinel text |

## Left out

- Persistence in `localStorage` (`usePersistentState`, the removals in `goHome`) is left out. It is I/O; the model keeps only the in-memory cells.
- Toasts, `console` output, `window.print` and JSX rendering are left out. They are I/O and layout.
- Concurrency is left out. Each async handler is split into a start and a finish method, and the finish takes the awaited result as a parameter. Interleavings of several pending requests, and React's batching of `setState`, are not modelled.
- The functional `setImageCache(prev => ...)` updates are modelled as updates of the current cache.
- Aliasing between plans is left out. `[...plan]` (components/Builder.tsx:88, 107, 137) copies only the array, and the delete, save and regenerate handlers then write into the shared day object (components/Builder.tsx:99, 120, 139), so the previous plan value sees the change too. The model treats a plan as a value and replaces the day through `Builder.SetSlot`, so the old and new plans never share a day.
- `Math.random` becomes an explicit `Draw`: the plan's fallback meals are inputs related to the generator by `Fallback.Generated`, and Builder.BuilderView.RegenerateMeal takes the draw as a parameter. The distribution is not modelled.
- The AI calls are parameters. `api/gemini.ts`, `hooks/useGemini.ts`, the toast context and `components/ui.tsx` are not part of this model.
- Builder.BuilderView.RegenerateMeal: requires `meals > 0` on the fallback path, as App.CalPerMeal does. With 0 meals the source's per-meal calories are `Infinity`/`NaN`.
- App.CalPerMeal: requires `meals > 0`. The source divides by `data.meals`, and 0 meals gives `Infinity`/`NaN`, which the integer model does not represent.
- Floating point is left out: numbers are integers, so `Number(x) || 0` is the integer value, `NaN` does not occur, and `Math.round` of an already whole number is the number.
- `Object.values` lists integer-like keys first in JavaScript. The model keeps pure insertion order. This is exact for the wizard's labels, which are not numeric.
- The regular expressions of the parser are modelled for this parser only (`### ` / `**` markers, `-\s*` items, the first marker found by `replace(/.*?(### |\*\*)/s)`). They are not a general regular-expression engine.
- `String(x)` on non-string ingredient entries, and meals that are neither `{}` nor well-typed records, are left out. The data model is typed.
- The config form and its validation are left out (`ConfigForm` is not part of the core). `data` changes only through the mode selection and `goHome`.
- Source quirks modelled as written:
  - Regenerating a meal keeps the old cache entry.
  - A non-empty AI plan is accepted without checking its length against the day count.
  - `goHome` resets the mode to 'ai'.
  - Deleting a present `{}` slot also rewrites it, because `{}` is truthy.
  - The scan checks the cache as it was at render time.
  - A "**" in the middle of a bullet line starts a category. The text before it is dropped, and the rest of the line becomes the title, so that item is lost (Review.BoldItemTomate).
