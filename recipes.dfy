/**
 * The catalog entities. A recipe is an immutable value; the filter pipeline
 * hands back entries, which are recipes optionally annotated with the derived
 * `matchCount` and `matchPercentage` fields (`{...recipe, matchCount, matchPercentage}`).
 */
module Recipes {
  import opened Wrappers

  type RecipeId = int

  /**
   * The fields of a catalog recipe the engine reads. Name, instructions,
   * nutrition and image are carried along by the source untouched;
   * only `name` is kept here.
   */
  datatype Recipe = Recipe(
    id: RecipeId,
    name: string,
    cuisine: string,
    difficulty: string,
    cookTime: int,
    servings: int,
    ingredients: seq<string>,
    dietary: seq<string>)

  /** `(matchCount / ingredients.length) * 100`, which is NaN for a recipe without ingredients. */
  datatype Percent = Finite(value: real) | NaN

  /** A listed recipe as the pipeline passes it on: plain, or annotated by the ingredient stage. */
  datatype Entry =
    | Listed(recipe: Recipe)
    | Scored(recipe: Recipe, matchCount: nat, matchPercentage: Percent)

  /** The sort key `matchCount`; a plain entry is never sorted, and counts as 0. */
  function Key(e: Entry): nat {
    if e.Scored? then e.matchCount else 0
  }

  /** The matchCount shown in the UI is present and positive (`recipe.matchCount > 0`). */
  predicate HasMatch(e: Entry) {
    e.Scored? && e.matchCount > 0
  }

  /** Above this cook time the cook-time filter is switched off. */
  const CookTimeCeiling: int := 120

  /**
   * The filter settings: the selected ingredients, the dietary preferences,
   * the difficulty ("" when unset), the maximum cook time (120 when unset)
   * and the servings count (None when the dropdown is "").
   */
  datatype Filters = Filters(
    selectedIngredients: seq<string>,
    dietaryPrefs: seq<string>,
    difficultyFilter: string,
    maxCookTime: int,
    servingsFilter: Option<int>)

  /** Plain entries for the recipes, in order: what a stage-less pipeline passes on. */
  function Unscored(recipes: seq<Recipe>): (r: seq<Entry>)
    ensures |r| == |recipes|
    ensures forall i :: 0 <= i < |r| ==> r[i] == Listed(recipes[i])
  {
    seq(|recipes|, i requires 0 <= i < |recipes| => Listed(recipes[i]))
  }

  /** The recipes behind a list of entries. */
  function RecipesOf(entries: seq<Entry>): (r: seq<Recipe>)
    ensures |r| == |entries|
    ensures forall i :: 0 <= i < |r| ==> r[i] == entries[i].recipe
  {
    seq(|entries|, i requires 0 <= i < |entries| => entries[i].recipe)
  }

  lemma UnscoredRecipes(recipes: seq<Recipe>)
    ensures RecipesOf(Unscored(recipes)) == recipes
  {
  }
}
