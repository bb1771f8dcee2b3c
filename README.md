# Smart Recipe Generator: recipe matching, filtering and label reconciliation in Dafny

This project models the logic core of a small React recipe finder and proves
what it promises. The user selects ingredients, by typing them or by uploading
a photo. The page then ranks the catalog recipes by how many of their
ingredients match the selection. It narrows them by dietary tags, difficulty,
cook time and servings, lists the ingredients a recipe still lacks, offers
substitutes for an ingredient, and suggests recipes similar to the ones the
user rated highly. A serverless endpoint turns the labels an image-recognition
service returns into canonical ingredient names, through a fixed keyword
table.

The files:

- `strings.dfy` (`Strings`): ASCII `toLowerCase`, `trim` and `includes`.
  `includes` is proved equal to "occurs at some position", together with
  lemmas that show a needle is absent.
- `seqs.dfy` (`Seqs`): `Array.prototype.filter`, `slice(0, n)`, "push unless
  already included", and the first-match scan over an ordered table of
  (key, value) entries. That scan is `Object.entries` with an early exit; its
  order is key insertion order, as section 10.1.11.1 of ECMA-262 (2023
  edition) specifies.
- `matching.dfy` (`Matching`): the ingredient matcher. Two names match when,
  lower-cased, either contains the other.
- `recipes.dfy` (`Recipes`): the catalog recipe, the entry the pipeline hands
  on (plain, or annotated with `matchCount` and `matchPercentage`), and the
  filter settings.
- `recipe_filters.dfy` (`RecipeFilters`): `src/utils/recipeFilters.js`.
  - The scoring and the stable descending sort. ECMA-262 requires
    `Array.prototype.sort` to be stable (section 23.1.3.30 of the 2023
    edition), so the sort is modelled as a stable insertion sort.
  - The four guarded filter stages, the util `filterRecipes`,
    `getMissingIngredients` and `getRecipeSuggestions`. The page's own
    `getSuggestions` (`src/App.jsx:249-260`) has the same body as
    `getRecipeSuggestions`, so `RecipeFilters.RecipeSuggestions` models both.
- `analyze_image.dfy` (`LabelReconciler`): the keyword table and the
  label-to-ingredient loops of `api/analyze-image.js`.
- `substitutions.dfy` (`Substitutions`): the ordered substitution table.
- `app.dfy` (`App`): `src/App.jsx`.
  - The page's own filter (`Shown`) and missing-ingredient helper.
  - The substitution lookup loop and the upload checks.
  - The handlers' state transitions as functions.
  - The `Session` class: the `useState` fields, with one method per handler.

The recipe catalog (`./data/recipes`) is not part of this model. It is a
parameter of everything that reads it.

The endpoint's loop has no cap on the names it returns
(`api/analyze-image.js:152-169`), so `LabelReconciler.Reconcile` is uncapped.
The page merges only the first ten names it receives (`src/App.jsx:112`), and
`App.MergeDetected` applies that limit.

The merge starts from the selection the upload handler captured when the
upload began (`src/App.jsx:57`, read at line 111). The network response arrives
later (line 77). Its merged list then replaces the whole selection (line 117).
`App.Session` keeps that captured copy as the field `uploadBase`, which
`CheckImage` records and `HandleDetected` merges into. So an ingredient added
while the request is pending is lost unless the image reports it too
(`App.MergeDropsLaterAdditions`).

## Model

| member | source | states |
|---|---|---|
| Strings.Lower | src/App.jsx:148 | `toLowerCase` keeps the length and lower-cases each ASCII letter, leaving every other character alone |
| Strings.TrimLowerEmptyIff | src/App.jsx:147-148 | `ing.toLowerCase().trim()` is blank exactly when `ing.trim()` is, so the blank check before lower-casing is the right one |
| Strings.Trim | src/App.jsx:147-148 | `trim` returns a contiguous slice of its input with only whitespace cut off before and after it, and a non-blank result starts and ends with a non-space character |
| Strings.Includes | src/utils/recipeFilters.js:18-19 | `includes` as "some suffix of the haystack starts with the needle"; `IncludesIff` relates it to positions |
| Strings.IncludesIff | src/utils/recipeFilters.js:18-19 | `includes` holds exactly when the needle occurs at some position of the haystack |
| Seqs.Filter | src/utils/recipeFilters.js:32-50 | `filter` keeps exactly the elements satisfying the predicate, in their original order (a subsequence) |
| Seqs.AppendIfAbsent | src/App.jsx:113-115 | push-unless-included yields the old list extended by at most the new element, with the element present and no duplicate introduced |
| Seqs.FirstHit | src/App.jsx:240-243 | the first-match scan returns nothing exactly when no key hits; otherwise it returns the value of a hit whose predecessors all miss |
| Seqs.FirstHitIs | src/App.jsx:240-243 | a hit at entry k with misses before it decides the scan's result, whatever follows |
| Matching.Matches | src/utils/recipeFilters.js:17-20 | two names match exactly when one lower-cased name occurs, at some position, inside the other |
| Matching.MatchesSymmetric | src/utils/recipeFilters.js:17-20 | the match rule does not depend on which side is the recipe's ingredient |
| Matching.EmptyMatchesEverything | src/utils/recipeFilters.js:17-20 | an empty selected string matches every ingredient, and every ingredient matches itself |
| Matching.MatchesIgnoresCase | src/utils/recipeFilters.js:18-19 | lower-casing either argument beforehand changes nothing |
| RecipeFilters.MatchCount | src/utils/recipeFilters.js:16-21 | the match count is the number of the recipe's ingredients matched by some selected ingredient, at most the ingredient count |
| RecipeFilters.Percentage | src/utils/recipeFilters.js:25 | the percentage is finite exactly when the recipe has ingredients; then percentage × ingredient count = match count × 100, within 0..100 |
| RecipeFilters.Score | src/utils/recipeFilters.js:15-26 | scoring keeps the recipe and annotates it with its true match count (at most the ingredient count) and a percentage that is finite exactly when the recipe has ingredients, then equal to count × 100 / ingredients |
| RecipeFilters.Insert | src/utils/recipeFilters.js:27 | one step of the stable insertion sort adds exactly the one entry to the list; with `InsertNonIncreasing` it keeps a ranked list ranked |
| RecipeFilters.Rank | src/utils/recipeFilters.js:27 | the sort returns a permutation of its input, non-increasing in matchCount |
| RecipeFilters.RankFilter | src/utils/recipeFilters.js:27 | sorting commutes with any filter: sorting the kept entries gives the kept entries of the sorted list |
| RecipeFilters.RankStable | src/utils/recipeFilters.js:27 | the sort is stable: entries with equal matchCount keep their input order |
| RecipeFilters.RankedKeepsEveryRecipe | src/utils/recipeFilters.js:14-28 | the util ingredient stage keeps every recipe, zero matches included, as a stable permutation sorted by matchCount |
| RecipeFilters.DietaryStage | src/utils/recipeFilters.js:31-35 | the stage keeps, in order, exactly the entries carrying every selected preference; with none selected it keeps everything |
| RecipeFilters.DifficultyStage | src/utils/recipeFilters.js:37-40 | the stage keeps, in order, exactly the entries of the chosen difficulty; with none chosen it keeps everything |
| RecipeFilters.CookTimeStage | src/utils/recipeFilters.js:42-45 | the stage keeps, in order, exactly the entries within the cook time; at the ceiling of 120 it keeps everything |
| RecipeFilters.ServingsStage | src/utils/recipeFilters.js:47-51 | the stage keeps, in order, exactly the entries with the chosen servings; with none chosen it keeps everything |
| RecipeFilters.Refine | src/utils/recipeFilters.js:30-51 | the four stages in sequence keep, in order, exactly the entries passing every active filter |
| RecipeFilters.RefineIsFilter | src/utils/recipeFilters.js:30-51 | the four guarded stages together are one filter by "passes every active filter" |
| RecipeFilters.LaterStagesCommute | src/utils/recipeFilters.js:37-51 | the difficulty, cook-time and servings stages commute pairwise |
| RecipeFilters.DietaryIsConjunctive | src/utils/recipeFilters.js:31-35 | a recipe survives the dietary stage exactly when it carries every selected preference |
| RecipeFilters.VeganOnlyFailsTwoPrefs | src/utils/recipeFilters.js:31-35 | a recipe tagged only "vegan" is dropped when the preferences are "vegan" and "gluten-free" |
| RecipeFilters.FilterRecipes | src/utils/recipeFilters.js:2-54 | the util returns at most one entry per input recipe, each a recipe of the input passing every active filter; scored against the selection when there is one, plain otherwise |
| RecipeFilters.FilterRecipesScored | src/utils/recipeFilters.js:2-54 | with a selection, the util result is a subsequence of the ranked list, non-increasing and stable, and holds exactly the scored recipes passing every active filter, each with its true match count |
| RecipeFilters.FilterRecipesInactive | src/utils/recipeFilters.js:2-54 | with no selection and every filter unset, the util returns the input recipes unchanged |
| RecipeFilters.MissingIngredients | src/utils/recipeFilters.js:56-63 | the missing ingredients are exactly those no selected ingredient matches, in recipe order, and together with the matched ones they account for all ingredients |
| RecipeFilters.MissingWithoutSelection | src/utils/recipeFilters.js:56-63 | with an empty selection the util lists every ingredient as missing |
| RecipeFilters.RatedHigh | src/utils/recipeFilters.js:66 | `ratings[r.id] >= 4` holds exactly for a recipe with a rating of 4 or more; a missing rating compares as false |
| RecipeFilters.Unrated | src/utils/recipeFilters.js:73 | `!ratings[r.id]` holds for a recipe without a rating or rated 0, and never for one rated 4 or more |
| RecipeFilters.Similar | src/utils/recipeFilters.js:69-74 | testing against the deduplicated lists of rated cuisines and tags is the same as asking whether some highly rated recipe shares the cuisine or a tag |
| RecipeFilters.RecipeSuggestions | src/utils/recipeFilters.js:65-76 | no suggestions when no recipe is rated 4 or more; otherwise exactly the first three (or all, if fewer) catalog recipes that are unrated and share a cuisine or tag with a recipe rated 4 or more, in catalog order |
| LabelReconciler.Contribution | api/analyze-image.js:157-167 | a label yields nothing unless its confidence exceeds 70; then it yields nothing exactly when no keyword occurs in its lower-cased name, and otherwise the value of the first keyword in table order that does |
| LabelReconciler.Reconcile | api/analyze-image.js:152-169 | the detected list has no duplicates and is no longer than the label list |
| LabelReconciler.DetectIngredients | api/analyze-image.js:152-169 | the nested loops with `break` build exactly the list `Reconcile` describes |
| LabelReconciler.ReconcileSnoc | api/analyze-image.js:156-166 | one more label extends the list by its contribution when that is new, and leaves it alone otherwise |
| LabelReconciler.ReconcileOne | api/analyze-image.js:156-166 | a single label yields its contribution, or nothing |
| LabelReconciler.ReconcileTwo | api/analyze-image.js:156-166 | two labels yield their contributions in label order, a repeated ingredient once |
| LabelReconciler.ReconcileMembers | api/analyze-image.js:156-169 | an ingredient is detected exactly when some label contributes it |
| LabelReconciler.ReconcileFromTable | api/analyze-image.js:101-165 | every detected ingredient is a canonical value of the keyword table |
| LabelReconciler.ReconcileIgnoresUnconfident | api/analyze-image.js:162 | removing every label with confidence 70 or less leaves the result unchanged |
| LabelReconciler.ReconcileOrder | api/analyze-image.js:156-165 | detected ingredients appear in the order of their first contributing label |
| LabelReconciler.AtThresholdIgnored | api/analyze-image.js:162 | a label at exactly 70 contributes nothing |
| LabelReconciler.EggplantIsEgg | api/analyze-image.js:116-134 | "Eggplant" is detected as `egg`, because keyword `egg` precedes `eggplant` |
| LabelReconciler.PineappleIsApple | api/analyze-image.js:139-146 | "Pineapple" is detected as `apple`, because keyword `apple` precedes `pineapple` |
| LabelReconciler.PearIsPeas | api/analyze-image.js:128-149 | "Pear" is detected as `peas`, because keyword `pea` precedes `pear` |
| LabelReconciler.FishYieldsSalmon | api/analyze-image.js:113 | a confident "Fish" label yields `salmon`, the value of keyword `fish` |
| LabelReconciler.SalmonYieldsSalmon | api/analyze-image.js:114 | a confident "Salmon" label yields `salmon` |
| LabelReconciler.FishAndSalmonOnce | api/analyze-image.js:113-114 | "Fish" and "Salmon" together yield `salmon` once |
| LabelReconciler.TomatoScenario | api/analyze-image.js:162 | a confident "Fresh Tomato" yields `tomato`; a "Tomato Sauce" at 60 adds nothing |
| Substitutions.TableShape | src/data/substitutions.js:2-13 | twelve rows, each key lower-case with exactly three substitutes |
| Substitutions.KeysDistinct | src/data/substitutions.js:1-14 | no key appears twice |
| Substitutions.KeyOrder | src/data/substitutions.js:2-10 | `butter` precedes `milk` and `cheese` precedes `cream` |
| App.Shown | src/App.jsx:167-215 | the page shows at most one entry per catalog recipe, each passing every active filter; with a selection each is scored and matches at least one selected ingredient, without one each is plain |
| App.ShownIsUtilWithMatches | src/App.jsx:167-215 | with a selection, the page's result is the util result with the zero-match entries removed; without one it is the util result |
| App.ShownWithSelection | src/App.jsx:171-208 | with a selection, the page shows exactly the scored recipes matching at least one selected ingredient and passing every active filter, with 1 ≤ matchCount ≤ ingredient count, non-increasing and stable |
| App.ShownWithoutSelection | src/App.jsx:191-208 | without a selection, the page shows the catalog recipes that pass every active filter, in catalog order |
| App.ShownInactive | src/App.jsx:169-208 | with every filter unset the page shows the whole catalog in order |
| App.MissingFor | src/App.jsx:227-235 | nothing while the selection is empty; otherwise exactly the unmatched ingredients in recipe order, complementing the match count |
| App.MissingForEmptySelection | src/App.jsx:228 | on an empty selection the page shows no missing ingredients while the util helper lists them all |
| App.SubstitutesFor | src/App.jsx:238-246 | the lookup finds nothing exactly when no key is related to the lower-cased ingredient; otherwise it returns the row of the first related key in table order |
| App.GetSubstitutionsForIngredient | src/App.jsx:238-246 | the loop with early return computes exactly `SubstitutesFor` |
| App.SubstitutesIgnoreCase | src/App.jsx:239 | the lookup does not depend on the ingredient's case |
| App.CreamCheeseGetsCheese | src/App.jsx:240-243 | "Cream Cheese" gets the `cheese` row, not the `cream` row |
| App.ButtermilkGetsButter | src/App.jsx:240-243 | "buttermilk" gets the `butter` row, not the `milk` row |
| App.SoyGetsSoySauce | src/App.jsx:241 | "soy" gets the `soy sauce` row, because the key contains the ingredient |
| App.BlankGetsFirstRow | src/App.jsx:241 | a blank ingredient gets the first row |
| App.CheddarGetsCheese | src/App.jsx:240-243 | "cheddar cheese" gets the `cheese` row |
| App.UploadProblem | src/App.jsx:61-69 | an upload is refused exactly when its type does not start with "image/" or it exceeds 5,000,000 bytes, with the type message taking precedence |
| App.AppendNew | src/App.jsx:111-116 | merging keeps the old list as a prefix, adds only the new items, grows by at most their number and introduces no duplicate |
| App.MergeDetected | src/App.jsx:110-117 | merging an image's result adds only names among its first ten, grows the selection by at most ten, keeps it duplicate-free and keeps existing entries in order |
| App.AppendNewSnoc | src/App.jsx:111-116 | each loop step merges one more item by push-unless-included |
| App.MergeDropsLaterAdditions | src/App.jsx:57-117 | a name that joined the selection after the upload's copy was taken, and that the image did not report, is absent after the merge |
| App.AppendNewIdempotent | src/App.jsx:111-116 | merging the same items a second time changes nothing |
| App.WithIngredient | src/App.jsx:146-152 | blank input changes nothing; otherwise the trimmed lower-case name, never blank, is appended once; duplicates and blanks are never introduced |
| App.AddIdempotent | src/App.jsx:146-152 | adding the same input twice is the same as adding it once |
| App.Without | src/App.jsx:155-162 | removal of a name (an ingredient, or a preference when toggled off) deletes every copy of it and keeps the others in order |
| App.RemoveUndoesAdd | src/App.jsx:146-157 | removing a freshly added name restores the previous selection |
| App.Toggled | src/App.jsx:160-164 | toggling drops a present preference, keeping the others in order, and appends an absent one |
| App.ToggleTwice | src/App.jsx:160-164 | toggling twice restores a list without the preference, and the same set of preferences in any case |
| App.ToggleTwiceSameDietary | src/App.jsx:160-195 | after a double toggle the dietary stage keeps and drops the same recipes as before |
| App.FavoriteToggled | src/App.jsx:218-220 | toggling flips only that recipe's favourite status (an absent one counts as not favourite) |
| App.FavoriteTwice | src/App.jsx:218-220 | toggling the same recipe twice restores every favourite status |
| App.Rated | src/App.jsx:223-225 | a rating overwrites only that recipe's entry |
| App.RatedNotSuggested | src/App.jsx:223-260 | a recipe given a non-zero rating is never suggested |
| App.Session.constructor | src/App.jsx:25-37 | the initial state: empty selections and maps, the whole catalog shown, every filter unset |
| App.Session.AddIngredient | src/App.jsx:146-152 | the selection becomes `WithIngredient` of the old one and stays duplicate-free |
| App.Session.RemoveIngredient | src/App.jsx:155-157 | the selection becomes `Without` of the old one; nothing else changes |
| App.Session.ToggleDietary | src/App.jsx:160-164 | the preferences become `Toggled` of the old ones and stay duplicate-free |
| App.Session.FilterRecipes | src/App.jsx:167-215 | the shown recipes become `Shown` of the current settings, or the whole catalog when a stage threw |
| App.Session.ToggleFavorite | src/App.jsx:218-220 | the favourites become `FavoriteToggled` of the old ones; nothing else changes |
| App.Session.SetRating | src/App.jsx:223-225 | the ratings become `Rated` of the old ones; nothing else changes |
| App.Session.CheckImage | src/App.jsx:57-72 | the upload goes ahead exactly when `UploadProblem` finds nothing; the error shown is its message, or cleared; an accepted upload records the current selection as its copy |
| App.Session.HandleDetected | src/App.jsx:110-121 | a successful non-empty result replaces the selection with the upload's copy merged with the first ten names through the push loop, and clears the error; anything else sets the "No ingredients detected" message and keeps the selection |

## Left out

- I/O is not modelled. This covers the `FileReader`/`fetch` flow of `handleImageUpload`, `window.savedData` persistence (`src/App.jsx:40-49`), the JSX render, and the endpoint's handler around the label loop: CORS and method checks, credential loading, the recognition service call, and JSON responses. Labels arrive as a sequence of (name, confidence) pairs.
- The `useEffect` that re-runs `filterRecipes` whenever a setting changes (`src/App.jsx:52-54`) is not modelled as an automatic step. `Session.FilterRecipes` is the step it runs.
- App.Session.FilterRecipes: the exceptions behind the fail-open branch (`src/App.jsx:211-214`) cannot arise from a well-typed catalog. Whether a stage threw is therefore a parameter of the method rather than something the model derives.
- Floating point: `matchPercentage` and label confidences are exact reals.
- `toLowerCase` and `trim` are restricted to ASCII letters and ASCII whitespace.
- The servings dropdown's `parseInt` is not modelled. `AdvancedFilters.jsx` offers only "1", "2", "4" and "6", so the filter is an optional integer.
- Recipe fields the engine never reads (instructions, nutrition, image) are not carried. The catalog file itself is not part of this model.
- The rendering components under `src/components/` are not modelled.
- `src/utils/imageRecognition.js` is not modelled: it is a network client that the page does not import.
- The pipeline works on a copy of its input (`src/utils/recipeFilters.js:11`). Here that holds by construction, since every function takes sequences as values.
