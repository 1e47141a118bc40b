/** The local fallback meal generator (lib/data.ts): a total function over
    fixed catalogues.  Each random pick of the source is an explicit index. */
module Fallback {
  import opened Types
  import opened Strings

  /** A catalogue breakfast record. */
  datatype Breakfast = Breakfast(
    name: string,
    calories: int,
    description: string,
    ingredients: string,
    instructions: string)

  const Proteins: seq<string> := [
    "Pollo a la plancha", "Salmón al horno", "Tofu marinado", "Ternera magra", "Huevos revueltos",
    "Lentejas estofadas", "Pechuga de pavo", "Bacalao al pil pil", "Queso cottage"]

  const Carbs: seq<string> := [
    "con arroz integral", "con quinoa", "con batata asada", "con pasta integral",
    "con tostadas de aguacate", "con puré de patatas", "con cuscús", "con pan de pita integral"]

  const Veggies: seq<string> := [
    "y brócoli al vapor", "y ensalada mixta", "y espárragos trigueros", "y espinacas salteadas",
    "y calabacín a la plancha", "y pimientos asados", "y champiñones salteados"]

  const Breakfasts: seq<Breakfast> := [
    Breakfast("Avena con Frutos Rojos", 350,
      "Avena cocida con leche o agua, decorada con fresas y arándanos frescos.",
      "- 50g Avena\n- 150ml Leche\n- 50g Frutos Rojos",
      "1. Cocer avena con leche.\n2. Servir con frutos rojos."),
    Breakfast("Tostada de Aguacate y Huevo", 400,
      "Pan integral tostado con medio aguacate machacado y un huevo poché encima.",
      "- 2 rebanadas Pan Integral\n- 1 Aguacate\n- 2 Huevos",
      "1. Tostar el pan.\n2. Machacar aguacate.\n3. Hacer huevos."),
    Breakfast("Yogur Griego con Granola", 300,
      "Yogur griego natural sin azúcar con granola crujiente y un toque de miel.",
      "- 150g Yogur Griego\n- 30g Granola\n- 1 cda Miel",
      "1. Poner yogur en bol.\n2. Añadir granola y miel.")]

  const VegProteins: seq<string> := [
    "Tofu marinado", "Lentejas estofadas", "Garbanzos especiados", "Heura a la plancha",
    "Tempeh salteado", "Frijoles negros", "Seitan", "Edamame"]

  const VegBreakfasts: seq<Breakfast> := [
    Breakfast("Avena con Frutos Rojos (Vegana)", 350,
      "Avena cocida con leche de almendras, decorada con fresas y arándanos frescos.",
      "- 50g Avena\n- 150ml Leche de Almendras\n- 50g Frutos Rojos",
      "1. Cocer avena con leche.\n2. Servir con frutos rojos."),
    Breakfast("Tostada de Aguacate y Tomate", 300,
      "Pan integral tostado con medio aguacate machacado y tomate cherry.",
      "- 2 rebanadas Pan Integral\n- 1 Aguacate\n- 5 Tomates Cherry",
      "1. Tostar el pan.\n2. Machacar aguacate y poner encima con los tomates."),
    Breakfast("Revuelto de Tofu", 320,
      "Tofu firme desmigado y salteado con cúrcuma, espinacas y pimiento.",
      "- 150g Tofu Firme\n- 50g Espinacas\n- 1/4 Pimiento Rojo\n- 1/2 cdta Cúrcuma",
      "1. Desmigar tofu.\n2. Saltear con verduras y cúrcuma.")]

  const OilLine: string := "Aceite de oliva virgen extra"
  const SaltLine: string := "Sal y pimienta al gusto"
  const FallbackDescription: string :=
    "Un plato equilibrado y nutritivo generado automáticamente por el sistema de respaldo."
  const FallbackInstructions: string :=
    "1. Cocinar la proteína al gusto (plancha o horno).\n2. Preparar la guarnición de carbohidratos.\n3. Servir junto con las verduras y aderezar."
  const BreakfastCookTime: string := "10 min"
  const DishCookTime: string := "20-30 min"

  /** The default diet style of the generator's signature. */
  const DefaultDietStyle: string := "Equilibrada"

  /** The four random picks one call may use: a breakfast, or a protein, a
      carbohydrate side and a vegetable side. */
  datatype Draw = Draw(breakfast: nat, protein: nat, carb: nat, veggie: nat)

  /** `dietStyle.toLowerCase().includes("veg")` */
  predicate IsVeg(dietStyle: string) {
    Contains(Lower(dietStyle), "veg")
  }

  /** `type.toLowerCase().includes("desayuno")` */
  predicate IsBreakfast(mealType: string) {
    Contains(Lower(mealType), "desayuno")
  }

  function BreakfastSet(veg: bool): seq<Breakfast> {
    if veg then VegBreakfasts else Breakfasts
  }

  function ProteinSet(veg: bool): seq<string> {
    if veg then VegProteins else Proteins
  }

  /** The picks the chosen branch uses are within their catalogues, as
      `Math.floor(Math.random() * length)` always is. */
  predicate DrawFits(mealType: string, dietStyle: string, draw: Draw) {
    if IsBreakfast(mealType) then draw.breakfast < |BreakfastSet(IsVeg(dietStyle))|
    else
      && draw.protein < |ProteinSet(IsVeg(dietStyle))|
      && draw.carb < |Carbs|
      && draw.veggie < |Veggies|
  }

  /** "con" starts at index `i` of `s`. */
  predicate ConAt(s: string, i: nat) {
    i + 3 <= |s| && s[i] == 'c' && s[i + 1] == 'o' && s[i + 2] == 'n'
  }

  /** "con " starts at index `i` of `s`. */
  predicate ConSpaceAt(s: string, i: nat) {
    ConAt(s, i) && i + 4 <= |s| && s[i + 3] == ' '
  }

  /** "y " starts at index `i` of `s`. */
  predicate YAt(s: string, i: nat) {
    i + 2 <= |s| && s[i] == 'y' && s[i + 1] == ' '
  }

  /** Where `/con.*$/` first matches: the first "con" with no line
      terminator after it, or `|s|`. */
  function ConTailStart(s: string, from: nat): (k: nat)
    requires from <= |s|
    ensures from <= k <= |s|
    decreases |s| - from
  {
    if from == |s| then from
    else if ConAt(s, from) && LineEnd(s, from + 3) == |s| then from
    else ConTailStart(s, from + 1)
  }

  /** Where `/con |y /` first matches, or `|s|`. */
  function ConOrYStart(s: string, from: nat): (k: nat)
    requires from <= |s|
    ensures from <= k <= |s|
    ensures k < |s| ==> ConSpaceAt(s, k) || YAt(s, k)
    decreases |s| - from
  {
    if from == |s| || ConSpaceAt(s, from) || YAt(s, from) then from else ConOrYStart(s, from + 1)
  }

  /** Where `/y /` first matches, or `|s|`. */
  function YStart(s: string, from: nat): (k: nat)
    requires from <= |s|
    ensures from <= k <= |s|
    ensures k < |s| ==> YAt(s, k)
    decreases |s| - from
  {
    if from == |s| || YAt(s, from) then from else YStart(s, from + 1)
  }

  /** `s.replace(/con.*$/, '')`. */
  function CutConTail(s: string): (r: string)
    ensures |r| <= |s| && r == s[..|r|]
    ensures (forall i :: 0 <= i < |s| ==> !ConAt(s, i)) ==> r == s
  {
    assert (forall i :: 0 <= i < |s| ==> !ConAt(s, i)) ==> ConTailStart(s, 0) == |s| by {
      if forall i :: 0 <= i < |s| ==> !ConAt(s, i) {
        forall j | 0 <= j && j + 3 <= |s|
          ensures !(s[j] == 'c' && s[j + 1] == 'o' && s[j + 2] == 'n')
        {
          assert !ConAt(s, j);
        }
        ConTailStartNoCon(s, 0);
      }
    }
    s[..ConTailStart(s, 0)]
  }

  /** `s.replace(/con |y /, '')`: drop the first "con " or "y ". */
  function DropConOrY(s: string): (r: string)
    ensures |r| == |s| || |r| == |s| - 2 || |r| == |s| - 4
    ensures ConSpaceAt(s, 0) ==> r == s[4..]
    ensures YAt(s, 0) ==> r == s[2..]
    ensures (forall i :: 0 <= i < |s| ==> !ConSpaceAt(s, i) && !YAt(s, i)) ==> r == s
  {
    var k := ConOrYStart(s, 0);
    if k == |s| then s else if ConSpaceAt(s, k) then s[..k] + s[k + 4..] else s[..k] + s[k + 2..]
  }

  /** `s.replace(/y /, '')`: drop the first "y ". */
  function DropY(s: string): (r: string)
    ensures |r| == |s| || |r| == |s| - 2
    ensures YAt(s, 0) ==> r == s[2..]
    ensures (forall i :: 0 <= i < |s| ==> !YAt(s, i)) ==> r == s
  {
    var k := YStart(s, 0);
    if k == |s| then s else s[..k] + s[k + 2..]
  }

  /** The five ingredient names of a composed dish, before the "- " bullets. */
  function DishIngredients(p: string, c: string, v: string): (r: seq<string>)
    ensures |r| == 5 && r[3] == OilLine && r[4] == SaltLine
  {
    [Trim(CutConTail(p)), Trim(DropConOrY(c)), Trim(DropY(v)), OilLine, SaltLine]
  }

  function Bulleted(xs: seq<string>): (r: seq<string>)
    ensures |r| == |xs|
    ensures forall i :: 0 <= i < |xs| ==> r[i] == "- " + xs[i]
  {
    seq(|xs|, i requires 0 <= i < |xs| => "- " + xs[i])
  }

  /** `generateFallbackMeal(type, caloriesPerMeal, dietStyle)` with the random
      picks given by `draw`.  `caloriesPerMeal` is a whole number here, so
      `Math.round` leaves it unchanged. */
  function FallbackMeal(mealType: string, caloriesPerMeal: int, dietStyle: string, draw: Draw): (m: Meal)
    requires DrawFits(mealType, dietStyle, draw)
    ensures m.calories == caloriesPerMeal
    ensures m.name != ""
    ensures IsBreakfast(mealType) ==>
      var b := BreakfastSet(IsVeg(dietStyle))[draw.breakfast];
      && m.name == b.name && m.description == b.description
      && m.ingredients == StringForm(b.ingredients) && m.instructions == StringForm(b.instructions)
      && m.cookTime == Some(BreakfastCookTime)
    ensures !IsBreakfast(mealType) ==>
      && m.description == FallbackDescription
      && m.instructions == StringForm(FallbackInstructions)
      && m.cookTime == Some(DishCookTime)
  {
    var veg := IsVeg(dietStyle);
    if IsBreakfast(mealType) then
      var b := BreakfastSet(veg)[draw.breakfast];
      assert b.name != "" by { BreakfastNamesNonEmpty(); }
      Meal(b.name, b.description, caloriesPerMeal, StringForm(b.ingredients),
           StringForm(b.instructions), Some(BreakfastCookTime))
    else
      var p := ProteinSet(veg)[draw.protein];
      var c := Carbs[draw.carb];
      var v := Veggies[draw.veggie];
      Meal(p + " " + c + " " + v, FallbackDescription, caloriesPerMeal,
           StringForm(Join(Bulleted(DishIngredients(p, c, v)), '\n')),
           StringForm(FallbackInstructions), Some(DishCookTime))
  }

  /** `m` is a meal the generator can return for these arguments: some
      draw within the catalogues produces it. */
  ghost predicate Generated(m: Meal, mealType: string, caloriesPerMeal: int, dietStyle: string) {
    exists draw :: DrawFits(mealType, dietStyle, draw) && m == FallbackMeal(mealType, caloriesPerMeal, dietStyle, draw)
  }

  /** Every generated meal carries the requested calories and a name; a
      breakfast is one of the catalogue's breakfasts for the diet, a composed
      dish has the fixed description and instructions. */
  lemma GeneratedMeal(m: Meal, mealType: string, caloriesPerMeal: int, dietStyle: string)
    requires Generated(m, mealType, caloriesPerMeal, dietStyle)
    ensures m.calories == caloriesPerMeal && m.name != ""
    ensures IsBreakfast(mealType) ==>
      m.cookTime == Some(BreakfastCookTime) && exists k :: 0 <= k < |BreakfastSet(IsVeg(dietStyle))| && m.name == BreakfastSet(IsVeg(dietStyle))[k].name
    ensures !IsBreakfast(mealType) ==>
      && m.cookTime == Some(DishCookTime) && m.description == FallbackDescription
      && m.instructions == StringForm(FallbackInstructions)
  {
    var draw :| DrawFits(mealType, dietStyle, draw) && m == FallbackMeal(mealType, caloriesPerMeal, dietStyle, draw);
  }

  /** The generator always has a meal to return: every catalogue is
      non-empty. */
  lemma GeneratorTotal(mealType: string, caloriesPerMeal: int, dietStyle: string)
    ensures exists m :: Generated(m, mealType, caloriesPerMeal, dietStyle)
  {
    var draw := Draw(0, 0, 0, 0);
    assert DrawFits(mealType, dietStyle, draw);
    var m := FallbackMeal(mealType, caloriesPerMeal, dietStyle, draw);
    assert Generated(m, mealType, caloriesPerMeal, dietStyle);
  }

  lemma BreakfastNamesNonEmpty()
    ensures forall i :: 0 <= i < |Breakfasts| ==> Breakfasts[i].name != ""
    ensures forall i :: 0 <= i < |VegBreakfasts| ==> VegBreakfasts[i].name != ""
  {
  }

  /** `s` has no occurrence of "con". */
  ghost predicate NoCon(s: string) {
    forall j :: 0 <= j && j + 3 <= |s| ==> !(s[j] == 'c' && s[j + 1] == 'o' && s[j + 2] == 'n')
  }

  /** In a text without "con" the search for `/con.*$/` finds nothing. */
  lemma {:induction false} ConTailStartNoCon(s: string, from: nat)
    requires from <= |s| && NoCon(s)
    ensures ConTailStart(s, from) == |s|
    decreases |s| - from
  {
    if from < |s| {
      assert !ConAt(s, from);
      ConTailStartNoCon(s, from + 1);
    }
  }

  /** A text without "con" is left whole by the protein clean-up. */
  lemma CutConTailNoCon(s: string)
    requires NoCon(s)
    ensures CutConTail(s) == s
  {
    ConTailStartNoCon(s, 0);
  }

  /** `p` is a one-line protein name with non-space ends and without "con",
      which the clean-up of the generator therefore keeps whole. */
  ghost predicate ProteinName(p: string) {
    && NoCon(p) && '\n' !in p
    && p != [] && !IsSpace(p[0]) && !IsSpace(p[|p| - 1])
  }

  /** `s` is `connector` followed by one line of text with non-space ends. */
  ghost predicate Side(s: string, connector: string) {
    && |s| > |connector| && s[..|connector|] == connector
    && !IsSpace(s[|connector|]) && !IsSpace(s[|s| - 1])
    && '\n' !in s
  }

  /** The words of a side after its connector. */
  function SideWords(s: string, connector: string): (r: string)
    ensures StartsWith(s, connector) ==> s == connector + r
  {
    if StartsWith(s, connector) then s[|connector|..] else s
  }

  /** Every protein of both catalogues is a protein name. */
  lemma ProteinCatalogues(veg: bool)
    ensures forall i :: 0 <= i < |ProteinSet(veg)| ==> ProteinName(ProteinSet(veg)[i])
  {
    ProteinsWithoutConLow();
    ProteinsWithoutConHigh();
    VegProteinsWithoutConLow();
    VegProteinsWithoutConHigh();
    ProteinsSingleLine();
    VegProteinsSingleLine();
    ProteinsTrimmed();
    VegProteinsTrimmed();
  }

  lemma ProteinsWithoutConLow()
    ensures forall i :: 0 <= i < 5 ==> NoCon(Proteins[i])
  {
  }

  lemma ProteinsWithoutConHigh()
    ensures forall i :: 5 <= i < |Proteins| ==> NoCon(Proteins[i])
  {
  }

  lemma VegProteinsWithoutConLow()
    ensures forall i :: 0 <= i < 4 ==> NoCon(VegProteins[i])
  {
  }

  lemma VegProteinsWithoutConHigh()
    ensures forall i :: 4 <= i < |VegProteins| ==> NoCon(VegProteins[i])
  {
  }

  lemma ProteinsSingleLine()
    ensures forall i :: 0 <= i < |Proteins| ==> '\n' !in Proteins[i]
  {
  }

  lemma VegProteinsSingleLine()
    ensures forall i :: 0 <= i < |VegProteins| ==> '\n' !in VegProteins[i]
  {
  }

  lemma ProteinsTrimmed()
    ensures forall i :: 0 <= i < |Proteins| ==>
      Proteins[i] != [] && !IsSpace(Proteins[i][0]) && !IsSpace(Proteins[i][|Proteins[i]| - 1])
  {
  }

  lemma VegProteinsTrimmed()
    ensures forall i :: 0 <= i < |VegProteins| ==>
      VegProteins[i] != [] && !IsSpace(VegProteins[i][0]) && !IsSpace(VegProteins[i][|VegProteins[i]| - 1])
  {
  }

  /** Every carbohydrate side is "con " followed by its words. */
  lemma CarbsShape()
    ensures forall i :: 0 <= i < |Carbs| ==> Side(Carbs[i], "con ")
  {
  }

  /** Every vegetable side is "y " followed by its words. */
  lemma VeggiesShape()
    ensures forall i :: 0 <= i < |Veggies| ==> Side(Veggies[i], "y ")
  {
  }

  /** The three clean-ups keep a protein name whole and strip the connector
      of each side. */
  lemma DishIngredientsOf(p: string, c: string, v: string)
    requires ProteinName(p)
    requires Side(c, "con ") && Side(v, "y ")
    ensures DishIngredients(p, c, v) == [p, SideWords(c, "con "), SideWords(v, "y "), OilLine, SaltLine]
  {
    CutConTailNoCon(p);
    assert c[..4][0] == c[0] && c[..4][1] == c[1] && c[..4][2] == c[2] && c[..4][3] == c[3];
    assert ConSpaceAt(c, 0) && ConOrYStart(c, 0) == 0;
    assert v[..2][0] == v[0] && v[..2][1] == v[1];
    assert YAt(v, 0) && YStart(v, 0) == 0;
  }

  /** Each ingredient line of such a dish is one line. */
  lemma DishIngredientsSingleLine(p: string, c: string, v: string)
    requires ProteinName(p)
    requires Side(c, "con ") && Side(v, "y ")
    ensures forall k :: 0 <= k < 5 ==> '\n' !in Bulleted(DishIngredients(p, c, v))[k]
  {
    var xs := DishIngredients(p, c, v);
    DishIngredientsOf(p, c, v);
    IngredientNamesSingleLine(xs, p, c, v);
    BulletedSingleLine(xs);
  }

  lemma IngredientNamesSingleLine(xs: seq<string>, p: string, c: string, v: string)
    requires ProteinName(p)
    requires Side(c, "con ") && Side(v, "y ")
    requires xs == [p, SideWords(c, "con "), SideWords(v, "y "), OilLine, SaltLine]
    ensures forall k :: 0 <= k < |xs| ==> '\n' !in xs[k]
  {
    SideWordsSingleLine(c, "con ");
    SideWordsSingleLine(v, "y ");
    FixedLinesSingle();
  }

  lemma SideWordsSingleLine(s: string, connector: string)
    requires Side(s, connector)
    ensures '\n' !in SideWords(s, connector)
  {
    SliceChars(s, |connector|);
  }

  lemma BulletedSingleLine(xs: seq<string>)
    requires forall k :: 0 <= k < |xs| ==> '\n' !in xs[k]
    ensures forall k :: 0 <= k < |xs| ==> '\n' !in Bulleted(xs)[k]
  {
    FixedLinesSingle();
  }

  lemma FixedLinesSingle()
    ensures '\n' !in "- " && '\n' !in OilLine && '\n' !in SaltLine
  {
  }

  /** A composed dish is named after its three picks, and its ingredient text
      splits into exactly five bulleted lines: the protein, the two sides
      without their leading "con " / "y ", then oil and seasoning. */
  lemma DishIngredientLines(mealType: string, caloriesPerMeal: int, dietStyle: string, draw: Draw)
    requires !IsBreakfast(mealType)
    requires DrawFits(mealType, dietStyle, draw)
    ensures
      var p := ProteinSet(IsVeg(dietStyle))[draw.protein];
      var c := Carbs[draw.carb];
      var v := Veggies[draw.veggie];
      var m := FallbackMeal(mealType, caloriesPerMeal, dietStyle, draw);
      && m.name == p + " " + c + " " + v
      && m.ingredients.StringForm?
      && Split(m.ingredients.text, '\n') ==
         Bulleted([p, SideWords(c, "con "), SideWords(v, "y "), OilLine, SaltLine])
  {
    var p := ProteinSet(IsVeg(dietStyle))[draw.protein];
    var c := Carbs[draw.carb];
    var v := Veggies[draw.veggie];
    ProteinCatalogues(IsVeg(dietStyle));
    CarbsShape();
    VeggiesShape();
    DishIngredientsSingleLine(p, c, v);
    SplitJoin(Bulleted(DishIngredients(p, c, v)), '\n');
    DishIngredientsOf(p, c, v);
  }

  /** The diet styles of the configuration form that the generator treats as
      vegetarian. */
  lemma VegetarianaIsVeg()
    ensures IsVeg("Vegetariana")
  {
    var l := Lower("Vegetariana");
    assert l[0] == 'v' && l[1] == 'e' && l[2] == 'g';
    assert l[0..3] == "veg";
    ContainsAt(l, "veg", 0, 0);
  }

  lemma VeganaIsVeg()
    ensures IsVeg("Vegana")
  {
    var l := Lower("Vegana");
    assert l[0] == 'v' && l[1] == 'e' && l[2] == 'g';
    assert l[0..3] == "veg";
    ContainsAt(l, "veg", 0, 0);
  }

  /** The generator's default style and the form's default style draw from the
      full catalogues. */
  lemma EquilibradaIsNotVeg()
    ensures !IsVeg(DefaultDietStyle)
  {
    var l := Lower(DefaultDietStyle);
    assert forall i :: 0 <= i < |l| ==> l[i] != 'v';
    NoPairNotContains(l, "veg", 0);
  }

  lemma OmnivoraIsNotVeg()
    ensures !IsVeg("Omnívora")
  {
    var l := Lower("Omnívora");
    assert forall i :: 0 <= i && i + 1 < |l| ==> !(l[i] == 'v' && l[i + 1] == 'e');
    NoPairNotContains(l, "veg", 0);
  }
}
