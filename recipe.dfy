/**
 * The value types of the Boozy cocktail catalogue (Boozy/Models/Recipe.swift):
 * a recipe with its main information, ingredients and directions, the two
 * enumerations with their string labels, the validity rules that gate adding
 * a recipe, the step indexer used to number directions, and the formatter
 * that turns an ingredient into a line of text.
 *
 * Swift `String` is modelled as `string` (a sequence of characters) and
 * Swift arrays as `seq`. Every Swift struct here is a value type whose
 * members only compute, so each becomes a datatype with functions.
 */
module Recipes {
  import opened Wrappers

  /** An identifier assigned once when a recipe is created; generating it is
      left to the caller, so every initialiser takes it as a parameter. */
  type Uuid = bv128

  // ---------------------------------------------------------------------
  // Enumerations and their raw string labels
  // ---------------------------------------------------------------------

  /** The spirit a recipe is filed under. */
  datatype Category = Vodka | Tequila | Rum | Whiskey | Gin | Champagne
  {
    /** The raw label, used for display and as the persisted form. */
    function RawValue(): (raw: string)
      ensures |raw| > 0
    {
      match this
      case Vodka => "Vodka"
      case Tequila => "Tequila"
      case Rum => "Rum"
      case Whiskey => "Whiskey"
      case Gin => "Gin"
      case Champagne => "Champagne"
    }
  }

  /** The cases in declaration order, as `CaseIterable.allCases` lists them. */
  const AllCategories: seq<Category> := [Vodka, Tequila, Rum, Whiskey, Gin, Champagne]

  /** The failable initialiser `Category(rawValue:)`: the category whose label
      is `raw`, or `None` when no category has that label. */
  function CategoryFromRawValue(raw: string): (category: Option<Category>)
    ensures category.Some? ==> category.value.RawValue() == raw
    ensures category.None? <==> forall c: Category :: c.RawValue() != raw
  {
    if raw == "Vodka" then Some(Vodka)
    else if raw == "Tequila" then Some(Tequila)
    else if raw == "Rum" then Some(Rum)
    else if raw == "Whiskey" then Some(Whiskey)
    else if raw == "Gin" then Some(Gin)
    else if raw == "Champagne" then Some(Champagne)
    else None
  }

  /** The unit an ingredient's quantity is measured in; `NoUnits` is Swift's
      `.none`, for ingredients that are counted rather than measured. */
  datatype Unit = Oz | G | Cups | Tbs | Tsp | Dash | Cube | NoUnits
  {
    /** The raw label, which is also the plural form of the unit's name. */
    function RawValue(): (raw: string)
      ensures |raw| > 1
    {
      match this
      case Oz => "Ounces"
      case G => "Grams"
      case Cups => "Cups"
      case Tbs => "Tablespoons"
      case Tsp => "Teaspoons"
      case Dash => "Dashes"
      case Cube => "Cubes"
      case NoUnits => "No units"
    }

    /** `singularName`: the raw label with its last character dropped. */
    function SingularName(): (singular: string)
      ensures |singular| + 1 == |RawValue()|
      ensures singular < RawValue()
    {
      RawValue()[..|RawValue()| - 1]
    }
  }

  /** The cases in declaration order, as `CaseIterable.allCases` lists them. */
  const AllUnits: seq<Unit> := [Oz, G, Cups, Tbs, Tsp, Dash, Cube, NoUnits]

  /** The failable initialiser `Unit(rawValue:)`. */
  function UnitFromRawValue(raw: string): (unit: Option<Unit>)
    ensures unit.Some? ==> unit.value.RawValue() == raw
    ensures unit.None? <==> forall u: Unit :: u.RawValue() != raw
  {
    if raw == "Ounces" then Some(Oz)
    else if raw == "Grams" then Some(G)
    else if raw == "Cups" then Some(Cups)
    else if raw == "Tablespoons" then Some(Tbs)
    else if raw == "Teaspoons" then Some(Tsp)
    else if raw == "Dashes" then Some(Dash)
    else if raw == "Cubes" then Some(Cube)
    else if raw == "No units" then Some(NoUnits)
    else None
  }

  // ---------------------------------------------------------------------
  // The value types
  // ---------------------------------------------------------------------

  datatype MainInformation = MainInformation(name: string, description: string, category: Category)
  {
    /** Both texts filled in. */
    predicate IsValid()
    {
      |name| > 0 && |description| > 0
    }
  }

  datatype Direction = Direction(description: string, isOptional: bool)

  datatype Ingredient = Ingredient(name: string, quantity: string, unit: Unit)
  {
    /** The human-readable line for this ingredient. `formatG` stands for
        `String(format: "%g", quantity)`, whose text Foundation decides. */
    function Description(formatG: string -> string): (text: string)
      ensures unit == NoUnits && !IsSingularQuantity(quantity) ==> EndsWith(text, " " + name + "s")
      ensures !(unit == NoUnits && !IsSingularQuantity(quantity)) ==> EndsWith(text, " " + name)
      ensures unit != NoUnits && IsSingularQuantity(quantity) ==> "1 " <= text
      ensures !(unit != NoUnits && IsSingularQuantity(quantity)) ==> formatG(quantity) + " " <= text
    {
      var formattedQuantity := formatG(quantity);
      // The source switches on the unit with a `default` arm for every
      // measured unit; an `if` on `.none` says the same.
      if unit == NoUnits then
        var formattedName := if IsSingularQuantity(quantity) then name else name + "s";
        var text := formattedQuantity + " " + formattedName;
        EndsWithConcat(text, formattedQuantity, " " + formattedName);
        text
      else if IsSingularQuantity(quantity) then
        var text := "1 " + unit.SingularName() + " " + name;
        EndsWithConcat(text, "1 " + unit.SingularName(), " " + name);
        text
      else
        var text := formattedQuantity + " " + unit.RawValue() + " " + name;
        EndsWithConcat(text, formattedQuantity + " " + unit.RawValue(), " " + name);
        text
    }
  }

  /** The quantities the formatter treats as "one of": exactly these four
      literal texts, compared character by character. */
  predicate IsSingularQuantity(quantity: string)
  {
    quantity == "1" || quantity == "1/2" || quantity == "1/4" || quantity == "3/4"
  }

  datatype Recipe = Recipe(
    id: Uuid,
    mainInformation: MainInformation,
    ingredients: seq<Ingredient>,
    directions: seq<Direction>,
    isFavorite: bool)
  {
    /** The rule that gates the "Add" button for a new recipe. */
    predicate IsValid()
    {
      mainInformation.IsValid() && |ingredients| > 0 && |directions| > 0
    }

    /** `index(of:excludingOptionalDirections:)`: the position, among the
        directions still shown, of the first one whose text equals the text of
        `direction`. */
    function IndexOf(direction: Direction, excludingOptionalDirections: bool): (index: Option<nat>)
      ensures var shown := VisibleDirections(directions, excludingOptionalDirections);
        && (index.Some? ==>
              && index.value < |shown|
              && shown[index.value].description == direction.description
              && forall j :: 0 <= j < index.value ==> shown[j].description != direction.description)
        && (index.None? <==> forall j :: 0 <= j < |shown| ==> shown[j].description != direction.description)
    {
      FirstIndexOfDescription(VisibleDirections(directions, excludingOptionalDirections), direction.description)
    }
  }

  // ---------------------------------------------------------------------
  // Initialisers
  // ---------------------------------------------------------------------

  /** `Recipe.init(mainInformation:ingredients:directions:)`; a new recipe is
      never a favourite. */
  function NewRecipe(id: Uuid, mainInformation: MainInformation,
                     ingredients: seq<Ingredient>, directions: seq<Direction>): (r: Recipe)
    ensures r.id == id && r.mainInformation == mainInformation
    ensures r.ingredients == ingredients && r.directions == directions
    ensures !r.isFavorite
  {
    Recipe(id, mainInformation, ingredients, directions, false)
  }

  /** `Recipe.init()`: the blank recipe the "add" sheet starts from. */
  function DefaultRecipe(id: Uuid): (r: Recipe)
    ensures r.id == id && r.mainInformation.category == Vodka
    ensures !r.IsValid()
  {
    NewRecipe(id, MainInformation("", "", Vodka), [], [])
  }

  /** `Ingredient.init()`. */
  function DefaultIngredient(): Ingredient
  {
    Ingredient("", "", NoUnits)
  }

  /** `Direction.init()`. */
  function DefaultDirection(): Direction
  {
    Direction("", false)
  }

  // ---------------------------------------------------------------------
  // The pieces of the direction indexer
  // ---------------------------------------------------------------------

  /** The filter predicate of the indexer. */
  predicate IsShown(direction: Direction, excludingOptionalDirections: bool)
  {
    if excludingOptionalDirections then !direction.isOptional else true
  }

  /** `directions.filter { … }`: the directions kept by `IsShown`, in order. */
  function VisibleDirections(directions: seq<Direction>, excludingOptionalDirections: bool): (shown: seq<Direction>)
    ensures |shown| <= |directions|
    ensures forall d :: d in shown <==> d in directions && IsShown(d, excludingOptionalDirections)
    ensures !excludingOptionalDirections ==> shown == directions
  {
    if directions == [] then []
    else
      var rest := VisibleDirections(directions[1..], excludingOptionalDirections);
      if IsShown(directions[0], excludingOptionalDirections) then [directions[0]] + rest else rest
  }

  /** `firstIndex { $0.description == text }`. */
  function FirstIndexOfDescription(directions: seq<Direction>, text: string): (index: Option<nat>)
    ensures index.Some? ==>
      && index.value < |directions|
      && directions[index.value].description == text
      && forall j :: 0 <= j < index.value ==> directions[j].description != text
    ensures index.None? <==> forall j :: 0 <= j < |directions| ==> directions[j].description != text
  {
    if directions == [] then None
    else if directions[0].description == text then Some(0)
    else
      match FirstIndexOfDescription(directions[1..], text)
      case None => None
      case Some(i) => Some(i + 1)
  }

  /** Whether `suffix` is the tail of `s`. */
  predicate EndsWith(s: string, suffix: string)
  {
    |suffix| <= |s| && s[|s| - |suffix|..] == suffix
  }

  /** A string ends with whatever was appended to it last. */
  lemma EndsWithConcat(s: string, prefix: string, suffix: string)
    requires s == prefix + suffix
    ensures EndsWith(s, suffix)
  {
    assert s[|prefix|..] == suffix;
  }
  // ---------------------------------------------------------------------
  // Enumerations: labels and the failable initialisers are inverse
  // ---------------------------------------------------------------------

  /** Decoding a category's label gives the category back, and no two
      categories share a label. */
  lemma CategoryRawValueRoundTrip(c: Category, d: Category)
    ensures CategoryFromRawValue(c.RawValue()) == Some(c)
    ensures c.RawValue() == d.RawValue() ==> c == d
  {
  }

  /** Decoding a unit's label gives the unit back, and no two units share a
      label. */
  lemma UnitRawValueRoundTrip(u: Unit, v: Unit)
    ensures UnitFromRawValue(u.RawValue()) == Some(u)
    ensures u.RawValue() == v.RawValue() ==> u == v
  {
  }

  /** `allCases` lists every category exactly once. */
  lemma AllCategoriesListsEachOnce(c: Category)
    ensures |AllCategories| == 6
    ensures c in AllCategories
    ensures forall i, j :: 0 <= i < j < |AllCategories| ==> AllCategories[i] != AllCategories[j]
  {
  }

  /** `allCases` lists every unit exactly once. */
  lemma AllUnitsListsEachOnce(u: Unit)
    ensures |AllUnits| == 8
    ensures u in AllUnits
    ensures forall i, j :: 0 <= i < j < |AllUnits| ==> AllUnits[i] != AllUnits[j]
  {
  }

  /** The singular names the formatter prints, including the literal-minded
      "Dashe" for dashes and "No unit" for the unit that is never printed. */
  lemma SingularNames()
    ensures Oz.SingularName() == "Ounce"
    ensures Dash.SingularName() == "Dashe"
    ensures Cube.SingularName() == "Cube"
    ensures NoUnits.SingularName() == "No unit"
  {
  }

  // ---------------------------------------------------------------------
  // Validity and the initialisers
  // ---------------------------------------------------------------------

  /** The blank initialisers produce empty fields, and the blank recipe can
      never pass the "Add" gate. */
  lemma DefaultsAreBlank(id: Uuid)
    ensures DefaultRecipe(id).mainInformation == MainInformation("", "", Vodka)
    ensures DefaultRecipe(id).ingredients == [] && DefaultRecipe(id).directions == []
    ensures !DefaultRecipe(id).isFavorite
    ensures !DefaultRecipe(id).IsValid()
    ensures DefaultIngredient() == Ingredient("", "", NoUnits)
    ensures DefaultDirection() == Direction("", false)
  {
  }

  /** A recipe passes the gate exactly when its name, description,
      ingredient list and direction list are all non-empty; its identifier,
      category and favourite flag play no part. */
  lemma ValidityCharacterised(r: Recipe, id: Uuid, category: Category, favorite: bool)
    ensures r.IsValid() <==>
      r.mainInformation.name != "" && r.mainInformation.description != "" &&
      r.ingredients != [] && r.directions != []
    ensures r.IsValid() ==
      r.(id := id, isFavorite := favorite,
         mainInformation := r.mainInformation.(category := category)).IsValid()
  {
  }

  // ---------------------------------------------------------------------
  // The direction indexer
  // ---------------------------------------------------------------------

  /** The filter keeps order: filtering a concatenation is concatenating
      the filtered parts. */
  lemma {:induction false} VisibleDirectionsAppend(a: seq<Direction>, b: seq<Direction>, excluding: bool)
    ensures VisibleDirections(a + b, excluding) == VisibleDirections(a, excluding) + VisibleDirections(b, excluding)
  {
    if a == [] {
      assert a + b == b;
    } else {
      assert (a + b)[1..] == a[1..] + b;
      VisibleDirectionsAppend(a[1..], b, excluding);
    }
  }

  /** A shown direction at position `k` of the recipe sits, in the filtered
      list, right after the shown directions that precede it. */
  lemma VisibleDirectionsPosition(directions: seq<Direction>, excluding: bool, k: nat)
    requires k < |directions| && IsShown(directions[k], excluding)
    ensures var before := |VisibleDirections(directions[..k], excluding)|;
      before < |VisibleDirections(directions, excluding)| &&
      VisibleDirections(directions, excluding)[before] == directions[k]
  {
    var before, tail := directions[..k], directions[k..];
    assert directions == before + tail;
    VisibleDirectionsAppend(before, tail, excluding);
    var shownBefore, shownAfter := VisibleDirections(before, excluding), VisibleDirections(tail[1..], excluding);
    assert VisibleDirections(tail, excluding) == [directions[k]] + shownAfter;
    assert VisibleDirections(directions, excluding) == shownBefore + ([directions[k]] + shownAfter);
  }

  /** Without the flag the filter is the identity, so the indexer is the
      first position in `directions` with the same text. */
  lemma IndexOfAllDirections(r: Recipe, d: Direction)
    ensures var index := r.IndexOf(d, false);
      && (index.Some? ==>
            && index.value < |r.directions|
            && r.directions[index.value].description == d.description
            && forall j :: 0 <= j < index.value ==> r.directions[j].description != d.description)
      && (index.None? <==> forall j :: 0 <= j < |r.directions| ==> r.directions[j].description != d.description)
  {
  }

  /** With the flag set, a returned index names a required direction of the
      recipe and is below the number of required directions. */
  lemma IndexOfExcludingOptional(r: Recipe, d: Direction)
    ensures var index := r.IndexOf(d, true);
      var required := VisibleDirections(r.directions, true);
      index.Some? ==>
        && index.value < |required|
        && !required[index.value].isOptional
        && required[index.value] in r.directions
        && required[index.value].description == d.description
  {
    var index := r.IndexOf(d, true);
    var required := VisibleDirections(r.directions, true);
    if index.Some? {
      assert required[index.value] in required;
    }
  }

  /** The indexer looks at the query's text only, never at its flag. */
  lemma IndexOfIgnoresOptionalFlag(r: Recipe, text: string, a: bool, b: bool, excluding: bool)
    ensures r.IndexOf(Direction(text, a), excluding) == r.IndexOf(Direction(text, b), excluding)
  {
  }

  /** The detail screen asks for the index of each direction it shows, so it
      always gets one: the `?? 0` fallback there never fires. The number it
      gets is at most the direction's place among the shown directions. */
  lemma IndexOfShownDirection(r: Recipe, k: nat, excluding: bool)
    requires k < |r.directions| && IsShown(r.directions[k], excluding)
    ensures var index := r.IndexOf(r.directions[k], excluding);
      && index.Some?
      && index.value <= |VisibleDirections(r.directions[..k], excluding)|
      && index.GetOr(0) == index.value
  {
    VisibleDirectionsPosition(r.directions, excluding, k);
  }

  /** When the shown directions all have different texts, each is numbered by
      its own place in the shown list. */
  lemma IndexOfDistinctTexts(r: Recipe, k: nat, excluding: bool)
    requires var shown := VisibleDirections(r.directions, excluding);
      k < |shown| &&
      forall i, j :: 0 <= i < j < |shown| ==> shown[i].description != shown[j].description
    ensures r.IndexOf(VisibleDirections(r.directions, excluding)[k], excluding) == Some(k)
  {
  }

  /** Matching is by text: two shown directions with the same text get the
      same number, the first one's. */
  lemma DuplicateTextsShareANumber(r: Recipe, i: nat, j: nat, excluding: bool)
    requires var shown := VisibleDirections(r.directions, excluding);
      i < j < |shown| && shown[i].description == shown[j].description
    ensures var shown := VisibleDirections(r.directions, excluding);
      r.IndexOf(shown[j], excluding) == r.IndexOf(shown[i], excluding) &&
      r.IndexOf(shown[j], excluding) != Some(j)
  {
  }

  /** The first direction of any recipe is numbered first when optional
      steps are shown. */
  lemma FirstDirectionIsNumberedFirst(r: Recipe)
    requires r.directions != []
    ensures r.IndexOf(r.directions[0], false) == Some(0)
  {
  }

  // ---------------------------------------------------------------------
  // The ingredient formatter
  // ---------------------------------------------------------------------

  /** No sequence equals itself shifted by one place with a different
      character entering. */
  lemma {:induction false} ShiftedSequencesAgree(a: string, c: char, d: char)
    requires a + [c] == [d] + a
    ensures c == d
  {
    if a == [] {
      assert c == (a + [c])[0] == ([d] + a)[0] == d;
    } else {
      assert a[0] == (a + [c])[0] == ([d] + a)[0] == d;
      assert a[1..] + [c] == (a + [c])[1..] == ([d] + a)[1..] == a;
      assert a == [d] + a[1..];
      ShiftedSequencesAgree(a[1..], c, d);
    }
  }

  /** For counted ingredients the line is the formatted quantity, a space and
      the name; the name gains a trailing "s" exactly when the quantity is
      not one of the four singular texts. */
  lemma NoUnitsDescription(ing: Ingredient, formatG: string -> string)
    requires ing.unit == NoUnits
    ensures var text := ing.Description(formatG);
      && formatG(ing.quantity) + " " <= text
      && |text| == |formatG(ing.quantity)| + 1 + |ing.name| + (if IsSingularQuantity(ing.quantity) then 0 else 1)
      && (EndsWith(text, ing.name + "s") <==> !IsSingularQuantity(ing.quantity))
      && (IsSingularQuantity(ing.quantity) ==> EndsWith(text, " " + ing.name))
  {
    var text := ing.Description(formatG);
    var prefix := formatG(ing.quantity) + " ";
    var n := |ing.name|;
    if IsSingularQuantity(ing.quantity) {
      assert text == prefix + ing.name;
      assert text[|text| - (n + 1)..] == " " + ing.name;
      if EndsWith(text, ing.name + "s") {
        assert ing.name + "s" == [' '] + ing.name;
        ShiftedSequencesAgree(ing.name, 's', ' ');
      }
    } else {
      assert text == prefix + (ing.name + "s");
    }
  }

  /** For a measured unit and a singular quantity the line always begins
      with a literal "1" and the unit's singular name, whatever the quantity
      text was and whatever the quantity formatter produces. */
  lemma MeasuredSingularDescription(ing: Ingredient, formatG: string -> string, other: string -> string)
    requires ing.unit != NoUnits && IsSingularQuantity(ing.quantity)
    ensures ing.Description(formatG) == "1 " + ing.unit.SingularName() + " " + ing.name
    ensures ing.Description(formatG) == ing.Description(other)
    ensures ing.Description(formatG) == ing.(quantity := "1").Description(formatG)
  {
  }

  /** For a measured unit and any other quantity the line is the formatted
      quantity, the unit's plural label and the name, which is never
      pluralised. */
  lemma MeasuredPluralDescription(ing: Ingredient, formatG: string -> string)
    requires ing.unit != NoUnits && !IsSingularQuantity(ing.quantity)
    ensures var text := ing.Description(formatG);
      && formatG(ing.quantity) + " " + ing.unit.RawValue() + " " <= text
      && EndsWith(text, " " + ing.name)
      && |text| == |formatG(ing.quantity)| + |ing.unit.RawValue()| + |ing.name| + 2
  {
  }

  /** Two ingredients with the same quantity and unit print the same line
      only when they have the same name. */
  lemma DescriptionDeterminesName(a: Ingredient, b: Ingredient, formatG: string -> string)
    requires a.quantity == b.quantity && a.unit == b.unit
    requires a.Description(formatG) == b.Description(formatG)
    ensures a.name == b.name
  {
    var text := a.Description(formatG);
    var prefix, suffix;
    if a.unit == NoUnits {
      prefix := formatG(a.quantity) + " ";
      suffix := if IsSingularQuantity(a.quantity) then "" else "s";
    } else if IsSingularQuantity(a.quantity) {
      prefix := "1 " + a.unit.SingularName() + " ";
      suffix := "";
    } else {
      prefix := formatG(a.quantity) + " " + a.unit.RawValue() + " ";
      suffix := "";
    }
    assert text == prefix + a.name + suffix;
    assert text == prefix + b.name + suffix;
    assert a.name == text[|prefix|..|text| - |suffix|];
    assert b.name == text[|prefix|..|text| - |suffix|];
  }

  /** Manhattan's cherry, written "1", prints unpluralised; the same
      cherry counted "2" (not a catalogue entry) prints as "Cherrys". */
  lemma CherryLines(formatG: string -> string)
    ensures Ingredient("Cherry", "1", NoUnits).Description(formatG) == formatG("1") + " Cherry"
    ensures Ingredient("Cherry", "2", NoUnits).Description(formatG) == formatG("2") + " Cherrys"
  {
    assert !IsSingularQuantity("2");
    assert "Cherry" + "s" == "Cherrys";
  }

  /** Mint Julep's range quantity "6-8" is plural, so the name gains an "s"
      ("Leavess"). */
  lemma MintLeavesLine(formatG: string -> string)
    ensures Ingredient("Fresh Mint Leaves", "6-8", NoUnits).Description(formatG) == formatG("6-8") + " Fresh Mint Leavess"
  {
    assert !IsSingularQuantity("6-8");
    assert "Fresh Mint Leaves" + "s" == "Fresh Mint Leavess";
  }

  /** The blank ingredient prints the formatted empty quantity and a lone
      "s". */
  lemma BlankIngredientLine(formatG: string -> string)
    ensures DefaultIngredient().Description(formatG) == formatG("") + " s"
  {
    assert !IsSingularQuantity("");
  }

  /** Lines for measured ingredients of the catalogue with a singular
      quantity: half an ounce is printed as "1 Ounce", a single dash as
      "1 Dashe". */
  lemma MeasuredCatalogueLines(formatG: string -> string)
    ensures Ingredient("Simple Syrup", "1/2", Oz).Description(formatG) == "1 Ounce Simple Syrup"
    ensures Ingredient("Angostura Bitters", "1", Dash).Description(formatG) == "1 Dashe Angostura Bitters"
  {
    assert Oz.SingularName() == "Ounce";
    assert "1 " + "Ounce" + " " + "Simple Syrup" == "1 Ounce Simple Syrup";
    assert Dash.SingularName() == "Dashe";
    assert "1 " + "Dashe" + " " + "Angostura Bitters" == "1 Dashe Angostura Bitters";
  }

  /** Boulevardier's vermouth is written " 1" with a leading space, which is
      not one of the singular texts, so it is printed with the quantity
      formatter and the plural label. */
  lemma LeadingSpaceQuantityIsPlural(formatG: string -> string)
    ensures !IsSingularQuantity(" 1")
    ensures Ingredient("Sweet Vermouth", " 1", Oz).Description(formatG) == formatG(" 1") + " Ounces Sweet Vermouth"
  {
    assert !IsSingularQuantity(" 1");
    assert Oz.RawValue() == "Ounces";
    assert formatG(" 1") + " " + "Ounces" + " " + "Sweet Vermouth" == formatG(" 1") + " Ounces Sweet Vermouth";
  }
}
