# Boozy recipe model in Dafny

Boozy is an iOS cocktail-recipe browser. Its domain model, `Boozy/Models/Recipe.swift`, defines
value types: a `Recipe` with its `MainInformation` (name, description, spirit `Category`), a list
of `Ingredient`s (name, quantity text, `Unit`) and a list of `Direction`s (text, optional flag),
plus a favourite flag and an opaque `UUID`. On top of these it defines four things:

- the validity rules `MainInformation.isValid` and `Recipe.isValid`, which decide whether the
  "Add" button is shown for a new recipe;
- the direction indexer `Recipe.index(of:excludingOptionalDirections:)`. It filters out optional
  steps when asked to, then returns the first position whose text equals the query's text. The
  detail screen uses it to number the steps;
- the ingredient formatter `Ingredient.description` with `Unit.singularName`. It chooses singular
  or plural by comparing the quantity text with the four literals "1", "1/2", "1/4" and "3/4";
- the two enumerations with their string labels, and the blank initialisers.

This project models them in one module, `Recipes` (`recipe.dfy`). Every Swift struct becomes a
datatype, and every computed property becomes a function. The Swift `T?` results become
`Option<T>`, defined in `Wrappers` (`wrappers.dfy`).

Two inputs of the source cannot be computed in Dafny, so they are parameters:

- `formatG: string -> string` stands for `String(format: "%g", quantity)`. The source passes a
  Swift `String` to a `%g` floating-point specifier, and Foundation alone decides the text that
  comes out. Being a function parameter, it is assumed to give the same text for the same
  quantity text. Nothing else is assumed about it, not even that it returns the quantity unchanged.
- `id: Uuid` (a 128-bit value) stands for the `UUID()` generated in the default field initialiser.

The catalogue's own entries appear only as concrete examples:
- Manhattan's "1" cherry (Recipe.swift:159);
- Mint Julep's "6-8" mint leaves and "1/2" ounce of simple syrup (Recipe.swift:172-173);
- a "1" dash of Angostura bitters (Recipe.swift:219);
- Boulevardier's " 1" ounce of vermouth (Recipe.swift:128).

The "2" cherries in `CherryLines` are an illustration, not a catalogue entry.

## Model

| member | source | states |
|---|---|---|
| `Recipes.Category.RawValue` | Boozy/Models/Recipe.swift:48-55 | the raw label of each category (for example "Vodka"); never empty; inverse of `CategoryFromRawValue` (see `CategoryRawValueRoundTrip`) |
| `Recipes.AllCategories` | Boozy/Models/Recipe.swift:48-55 | `allCases` for `Category`: the six cases in declaration order (see `AllCategoriesListsEachOnce`) |
| `Recipes.CategoryFromRawValue` | Boozy/Models/Recipe.swift:48-55 | `Category(rawValue:)` returns a category exactly when one has that label, and that category's label is the input |
| `Recipes.CategoryRawValueRoundTrip` | Boozy/Models/Recipe.swift:48-55 | decoding a category's label gives the category back; no two categories share a label |
| `Recipes.AllCategoriesListsEachOnce` | Boozy/Models/Recipe.swift:48-55 | `allCases` lists all six categories, each exactly once |
| `Recipes.Unit.RawValue` | Boozy/Models/Recipe.swift:81-90 | the raw label of each unit, which is also the plural printed by the formatter; at least two characters long, so the singular name is non-empty; inverse of `UnitFromRawValue` (see `UnitRawValueRoundTrip`) |
| `Recipes.AllUnits` | Boozy/Models/Recipe.swift:81-90 | `allCases` for `Unit`: the eight cases in declaration order (see `AllUnitsListsEachOnce`) |
| `Recipes.AllUnitsListsEachOnce` | Boozy/Models/Recipe.swift:81-90 | `allCases` lists all eight units, each exactly once |
| `Recipes.UnitFromRawValue` | Boozy/Models/Recipe.swift:81-90 | `Unit(rawValue:)` returns a unit exactly when one has that label, and that unit's label is the input |
| `Recipes.UnitRawValueRoundTrip` | Boozy/Models/Recipe.swift:81-90 | decoding a unit's label gives the unit back; no two units share a label |
| `Recipes.Unit.SingularName` | Boozy/Models/Recipe.swift:91-92 | the singular name is a proper prefix of the raw label and exactly one character shorter |
| `Recipes.SingularNames` | Boozy/Models/Recipe.swift:91-92 | concretely: "Ounce", "Dashe", "Cube", and "No unit" for `.none` |
| `Recipes.NewRecipe` | Boozy/Models/Recipe.swift:25-29 | the memberwise initialiser: the given id, main information, ingredients and directions are stored unchanged, and the recipe starts as not a favourite |
| `Recipes.DefaultRecipe` | Boozy/Models/Recipe.swift:19-23 | `Recipe()`: category vodka, the given id, and never valid |
| `Recipes.DefaultIngredient` | Boozy/Models/Recipe.swift:102-104 | `Ingredient()` is `("", "", .none)` (stated in `DefaultsAreBlank`); it prints as the formatted empty quantity plus " s" (`BlankIngredientLine`) |
| `Recipes.DefaultDirection` | Boozy/Models/Recipe.swift:115-117 | `Direction()` is `("", false)` (stated in `DefaultsAreBlank`) |
| `Recipes.DefaultsAreBlank` | Boozy/Models/Recipe.swift:17-23 | `Recipe()` has empty name and description, category vodka, no ingredients, no directions and is not a favourite, so it is never valid; `Ingredient()` (lines 102-104) is `("", "", .none)` and `Direction()` (lines 115-117) is `("", false)` |
| `Recipes.MainInformation.IsValid` | Boozy/Models/Recipe.swift:56 | the name and the description are both non-empty; the category plays no part (see `ValidityCharacterised`) |
| `Recipes.Recipe.IsValid` | Boozy/Models/Recipe.swift:31-33 | the main information is valid and both lists are non-empty; characterised in `ValidityCharacterised`, and false for `DefaultRecipe` |
| `Recipes.ValidityCharacterised` | Boozy/Models/Recipe.swift:31-33 | a recipe is valid iff its name, description, ingredients and directions are all non-empty; the id, category and favourite flag do not affect validity |
| `Recipes.IsShown` | Boozy/Models/Recipe.swift:36 | the filter's predicate: with the flag, a direction is kept iff it is not optional; without it, every direction is kept |
| `Recipes.VisibleDirections` | Boozy/Models/Recipe.swift:36 | the filter keeps exactly the directions that are shown (all of them, or the non-optional ones), never grows the list, and is the identity without the flag |
| `Recipes.VisibleDirectionsAppend` | Boozy/Models/Recipe.swift:36 | the filter keeps order: filtering a concatenation concatenates the filtered parts |
| `Recipes.VisibleDirectionsPosition` | Boozy/Models/Recipe.swift:36 | a shown direction at position k lands in the filtered list right after the shown directions before k |
| `Recipes.FirstIndexOfDescription` | Boozy/Models/Recipe.swift:37 | `firstIndex` returns an in-bounds position whose text matches, with no earlier match; it returns none iff no position matches |
| `Recipes.Recipe.IndexOf` | Boozy/Models/Recipe.swift:35-39 | the indexer returns `Some(i)` iff some shown direction has the query's text; `i` is the first such position in the filtered list |
| `Recipes.IndexOfAllDirections` | Boozy/Models/Recipe.swift:36-37 | without the flag, the result is the first position in `directions` whose text matches, and none iff nothing matches |
| `Recipes.IndexOfExcludingOptional` | Boozy/Models/Recipe.swift:36-37 | with the flag, a returned index is below the number of required directions and names a required direction of the recipe with the query's text |
| `Recipes.IndexOfIgnoresOptionalFlag` | Boozy/Models/Recipe.swift:37 | the result depends on the query's text, not on its `isOptional` |
| `Recipes.IndexOfShownDirection` | Boozy/Models/Recipe.swift:35-38 | for each direction the detail screen shows, the indexer returns a number, so the `?? 0` fallback never fires (the value after `?? 0` is the returned index itself); that number is at most the direction's place among the shown ones |
| `Recipes.IndexOfDistinctTexts` | Boozy/Models/Recipe.swift:35-38 | when the shown directions have pairwise different texts, each is numbered by its own place in the shown list |
| `Recipes.DuplicateTextsShareANumber` | Boozy/Models/Recipe.swift:37 | two shown directions with the same text get the first one's number, so the later one is not numbered by its own place |
| `Recipes.FirstDirectionIsNumberedFirst` | Boozy/Models/Recipe.swift:35-38 | with optional steps shown, the first direction always gets index 0 |
| `Recipes.IsSingularQuantity` | Boozy/Models/Recipe.swift:70 | the singular test shared by lines 70 and 73: the quantity text is exactly "1", "1/2", "1/4" or "3/4" (so " 1" is not, see `LeadingSpaceQuantityIsPlural`) |
| `Recipes.Ingredient.Description` | Boozy/Models/Recipe.swift:66-79 | the line ends with a space and the name, plus "s" exactly for a `.none` unit with a non-singular quantity; it starts with the literal "1 " for a measured unit with a singular quantity, and with the formatted quantity and a space otherwise; the branch lemmas below pin the whole line |
| `Recipes.NoUnitsDescription` | Boozy/Models/Recipe.swift:67-71 | for `.none`, the line starts with the formatted quantity and a space, then the name; the line ends in the name plus "s" iff the quantity is not one of "1", "1/2", "1/4", "3/4"; its length is fixed accordingly |
| `Recipes.MeasuredSingularDescription` | Boozy/Models/Recipe.swift:72-74 | for a measured unit and a singular quantity, the line is "1 " + singular name + " " + name; it does not depend on the quantity formatter, and every singular quantity gives the same line as "1" |
| `Recipes.MeasuredPluralDescription` | Boozy/Models/Recipe.swift:75-77 | for a measured unit and any other quantity, the line starts with the formatted quantity, a space, the raw label and a space, and ends with a space and the unpluralised name |
| `Recipes.DescriptionDeterminesName` | Boozy/Models/Recipe.swift:66-79 | two ingredients with the same quantity and unit print the same line only if their names are equal |
| `Recipes.CherryLines` | Boozy/Models/Recipe.swift:159 | Manhattan's "Cherry"/"1" prints as the formatted "1" plus " Cherry"; the same cherry counted "2" (not a catalogue entry) prints "Cherrys" |
| `Recipes.MintLeavesLine` | Boozy/Models/Recipe.swift:172 | Mint Julep's "6-8" "Fresh Mint Leaves" prints as the formatted "6-8" plus " Fresh Mint Leavess" |
| `Recipes.BlankIngredientLine` | Boozy/Models/Recipe.swift:102-104 | the blank ingredient prints as the formatted "" plus " s" |
| `Recipes.MeasuredCatalogueLines` | Boozy/Models/Recipe.swift:72-74 | Mint Julep's "1/2" ounce of syrup prints as "1 Ounce Simple Syrup", and one dash of bitters as "1 Dashe Angostura Bitters" |
| `Recipes.LeadingSpaceQuantityIsPlural` | Boozy/Models/Recipe.swift:128 | Boulevardier's quantity " 1" has a leading space, so it is not singular and prints with the quantity formatter and "Ounces" |

## Left out

- `String(format: "%g", quantity)` is a Foundation call. It is the parameter `formatG`. The only thing assumed is that it depends on the quantity text alone. The source hands a String object to a floating-point specifier, so Foundation does not guarantee even that.
- `UUID()` generation is left out. Identifiers are passed to the initialisers as 128-bit values.
- Swift compares `String`s by canonical Unicode equivalence, and `dropLast` removes a grapheme cluster. The model compares and slices character sequences. For the ASCII unit labels, category labels and singular quantities, the two agree. For free-text direction descriptions they do not: the catalogue has non-ASCII texts such as "crème" (Recipe.swift:431) and "curaçao" (Recipe.swift:669). The lines below name the members affected.
- Recipes.Recipe.IndexOf: compares direction texts character by character, which is stricter than Swift's `==`. A precomposed "café" and a decomposed "cafe" plus a combining accent are different here, but the same in Swift, where the second would be numbered like the first.
- Recipes.FirstIndexOfDescription: uses the same character-by-character equality, so it can pass over a match that Swift's `firstIndex` would return.
- Recipes.IndexOfDistinctTexts: its "pairwise different texts" hypothesis uses character-sequence inequality. Two canonically equivalent texts count as distinct here, although Swift would give them one number.
- The `RecipeData` store (category and favourite queries, lookup by id, add, load and save) is not part of this model. Its source is not among the model's files, and its load and save are file I/O.
- `Codable` JSON encoding and decoding is a Foundation library. Only the label mappings it relies on are modelled: `RawValue`, `CategoryFromRawValue` and `UnitFromRawValue`.
- The SwiftUI views, the display preferences in `@AppStorage`, and the app entry point are presentation. So is the "Add" gate at RecipesListView.swift:53; the model covers only the `IsValid` predicate that gate reads.
- The seed catalogue `testRecipes` is literal data. A few of its entries appear as concrete examples in the catalogue lemmas.
- The `RecipeComponent` protocol that `Ingredient` and `Direction` conform to is declared outside these files and is not part of this model.
