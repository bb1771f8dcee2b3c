/**
 * src/utils/recipeFilters.js: the filter/rank pipeline, the missing-ingredient
 * resolver and the rating-based recommendations, as pure functions over the
 * recipes they are given.
 */
module RecipeFilters {
  import opened Wrappers
  import opened Seqs
  import opened Matching
  import opened Recipes

  // ---------------------------------------------------------------------------
  // Ingredient stage: score every recipe, then sort by matchCount
  // ---------------------------------------------------------------------------

  /** How many of the recipe's ingredients some selected ingredient matches, each counted once. */
  function MatchCount(ingredients: seq<string>, selection: seq<string>): (n: nat)
    ensures n <= |ingredients|
  {
    FilterLength(ingredients, Matched(selection));
    |Filter(ingredients, Matched(selection))|
  }

  /** `(count / total) * 100` in exact arithmetic. */
  function Percentage(count: nat, total: nat): (p: Percent)
    ensures p.Finite? <==> total > 0
    ensures p.Finite? ==> p.value * total as real == count as real * 100.0
    ensures p.Finite? && count <= total ==> 0.0 <= p.value <= 100.0
  {
    if total == 0 then NaN
    else
      var v := (count as real / total as real) * 100.0;
      assert v * total as real == count as real * 100.0;
      Finite(v)
  }

  /** `{...recipe, matchCount, matchPercentage}`. */
  function Score(recipe: Recipe, selection: seq<string>): (e: Entry)
    ensures e.Scored? && e.recipe == recipe
    ensures e.matchCount == MatchCount(recipe.ingredients, selection)
    ensures e.matchCount <= |recipe.ingredients|
    ensures e.matchPercentage.Finite? <==> |recipe.ingredients| > 0
    ensures e.matchPercentage.Finite? ==>
      e.matchPercentage.value * |recipe.ingredients| as real == e.matchCount as real * 100.0
  {
    var n := MatchCount(recipe.ingredients, selection);
    Scored(recipe, n, Percentage(n, |recipe.ingredients|))
  }

  /** `recipes.map(recipe => Score(recipe, selection))`. */
  function ScoreAll(recipes: seq<Recipe>, selection: seq<string>): (r: seq<Entry>)
    ensures |r| == |recipes|
    ensures forall i :: 0 <= i < |r| ==> r[i] == Score(recipes[i], selection)
  {
    seq(|recipes|, i requires 0 <= i < |recipes| => Score(recipes[i], selection))
  }

  /** Highest matchCount first. */
  ghost predicate NonIncreasing(s: seq<Entry>) {
    forall i, j :: 0 <= i < j < |s| ==> Key(s[i]) >= Key(s[j])
  }

  lemma NonIncreasingHead(s: seq<Entry>, y: Entry)
    requires NonIncreasing(s) && s != [] && y in s
    ensures Key(y) <= Key(s[0])
  {
    var i :| 0 <= i < |s| && s[i] == y;
  }

  /** Putting an element no smaller than the head in front keeps a list ranked. */
  lemma ConsNonIncreasing(x: Entry, s: seq<Entry>)
    requires NonIncreasing(s) && (s == [] || Key(s[0]) <= Key(x))
    ensures NonIncreasing([x] + s)
  {
    var r := [x] + s;
    forall i, j | 0 <= i < j < |r| ensures Key(r[i]) >= Key(r[j]) {
      assert r[j] == s[j - 1];
      if i > 0 { assert r[i] == s[i - 1]; }
    }
  }

  /**
   * One step of a stable insertion sort: `x` goes in front of the first element
   * whose key is not larger than its own, so it stays ahead of equal keys that
   * came after it in the input.
   */
  function Insert(x: Entry, s: seq<Entry>): (r: seq<Entry>)
    ensures multiset(r) == multiset(s) + multiset{x}
    ensures |r| == |s| + 1
    decreases |s|
  {
    if s == [] then [x]
    else if Key(s[0]) <= Key(x) then [x] + s
    else
      assert s == [s[0]] + s[1..];
      [s[0]] + Insert(x, s[1..])
  }

  /** Inserting into a ranked list keeps it ranked. */
  lemma {:induction false} InsertNonIncreasing(x: Entry, s: seq<Entry>)
    requires NonIncreasing(s)
    ensures NonIncreasing(Insert(x, s))
    decreases |s|
  {
    if s == [] {
    } else if Key(s[0]) <= Key(x) {
      ConsNonIncreasing(x, s);
    } else {
      var rest := Insert(x, s[1..]);
      assert NonIncreasing(s[1..]);
      InsertNonIncreasing(x, s[1..]);
      assert rest[0] in multiset(rest);
      if rest[0] != x {
        assert rest[0] in s[1..];
        NonIncreasingHead(s, rest[0]);
      }
      ConsNonIncreasing(s[0], rest);
    }
  }

  /**
   * `entries.sort((a, b) => b.matchCount - a.matchCount)`: a stable sort
   * (ECMA-262 requires `Array.prototype.sort` to be stable), descending by matchCount.
   */
  function Rank(s: seq<Entry>): (r: seq<Entry>)
    ensures multiset(r) == multiset(s)
    ensures |r| == |s|
    ensures NonIncreasing(r)
    decreases |s|
  {
    if s == [] then []
    else
      assert s == [s[0]] + s[1..];
      var rest := Rank(s[1..]);
      InsertNonIncreasing(s[0], rest);
      Insert(s[0], rest)
  }

  /** An insertion into a sorted list commutes with any filter. */
  lemma {:induction false} InsertFilter(x: Entry, t: seq<Entry>, p: Entry -> bool)
    requires NonIncreasing(t)
    ensures Filter(Insert(x, t), p) == if p(x) then Insert(x, Filter(t, p)) else Filter(t, p)
    decreases |t|
  {
    if t == [] {
    } else if Key(t[0]) <= Key(x) {
      assert ([x] + t)[0] == x && ([x] + t)[1..] == t;
      var ft := Filter(t, p);
      if p(x) && ft != [] {
        assert ft[0] in t;
        NonIncreasingHead(t, ft[0]);
      }
    } else {
      var rest := Insert(x, t[1..]);
      assert ([t[0]] + rest)[0] == t[0] && ([t[0]] + rest)[1..] == rest;
      assert NonIncreasing(t[1..]);
      InsertFilter(x, t[1..], p);
      if p(t[0]) {
        var f1 := Filter(t[1..], p);
        assert Filter(t, p) == [t[0]] + f1;
        assert ([t[0]] + f1)[0] == t[0] && ([t[0]] + f1)[1..] == f1;
      }
    }
  }

  /** Ranking a filtered list is filtering the ranked list: the rank is stable. */
  lemma {:induction false} RankFilter(s: seq<Entry>, p: Entry -> bool)
    ensures Rank(Filter(s, p)) == Filter(Rank(s), p)
    decreases |s|
  {
    if s != [] {
      RankFilter(s[1..], p);
      InsertFilter(s[0], Rank(s[1..]), p);
    }
  }

  /** A list whose keys are all equal is already ranked. */
  lemma {:induction false} RankConstant(s: seq<Entry>, k: nat)
    requires forall x :: x in s ==> Key(x) == k
    ensures Rank(s) == s
    decreases |s|
  {
    if s != [] {
      var tail := s[1..];
      forall x | x in tail ensures Key(x) == k {
        assert x in s;
      }
      RankConstant(tail, k);
      assert Rank(s) == Insert(s[0], tail);
      if tail != [] {
        assert tail[0] in s;
        assert Key(tail[0]) <= Key(s[0]);
      }
      assert [s[0]] + tail == s;
    }
  }

  function KeyIs(k: nat): Entry -> bool {
    e => Key(e) == k
  }

  /** Stability: the entries with any one matchCount keep their input order. */
  lemma RankStable(s: seq<Entry>, k: nat)
    ensures Filter(Rank(s), KeyIs(k)) == Filter(s, KeyIs(k))
  {
    RankFilter(s, KeyIs(k));
    RankConstant(Filter(s, KeyIs(k)), k);
  }

  /** Filtering keeps a list ranked. */
  lemma {:induction false} FilterNonIncreasing(s: seq<Entry>, p: Entry -> bool)
    requires NonIncreasing(s)
    ensures NonIncreasing(Filter(s, p))
    decreases |s|
  {
    if s != [] {
      assert NonIncreasing(s[1..]);
      FilterNonIncreasing(s[1..], p);
      var f1 := Filter(s[1..], p);
      if p(s[0]) {
        forall y | y in f1 ensures Key(y) <= Key(s[0]) { NonIncreasingHead(s, y); }
      }
    }
  }

  /** The ingredient stage of recipeFilters.js (lines 14-28): every recipe is kept. */
  function RankedByIngredients(recipes: seq<Recipe>, selection: seq<string>): seq<Entry> {
    Rank(ScoreAll(recipes, selection))
  }

  // ---------------------------------------------------------------------------
  // The four later stages
  // ---------------------------------------------------------------------------

  /** `dietaryPrefs.every(pref => recipe.dietary.includes(pref))`. */
  predicate DietaryOk(prefs: seq<string>, e: Entry) {
    forall pref :: pref in prefs ==> pref in e.recipe.dietary
  }

  /** Each criterion holds trivially when its filter is unset. */
  predicate DifficultyOk(difficulty: string, e: Entry) {
    difficulty == "" || e.recipe.difficulty == difficulty
  }

  predicate CookTimeOk(maxCookTime: int, e: Entry) {
    maxCookTime >= CookTimeCeiling || e.recipe.cookTime <= maxCookTime
  }

  predicate ServingsOk(servings: Option<int>, e: Entry) {
    servings.None? || e.recipe.servings == servings.value
  }

  function MeetsPrefs(prefs: seq<string>): Entry -> bool { e => DietaryOk(prefs, e) }
  function MeetsDifficulty(difficulty: string): Entry -> bool { (e: Entry) => e.recipe.difficulty == difficulty }
  function WithinCookTime(maxCookTime: int): Entry -> bool { (e: Entry) => e.recipe.cookTime <= maxCookTime }
  function MeetsServings(servings: int): Entry -> bool { (e: Entry) => e.recipe.servings == servings }

  /** Lines 31-35: the entries carrying every selected preference; with none selected, all of them. */
  function DietaryStage(s: seq<Entry>, prefs: seq<string>): (r: seq<Entry>)
    ensures forall e :: e in r <==> e in s && DietaryOk(prefs, e)
    ensures Subsequence(r, s)
  {
    if |prefs| > 0 then Filter(s, MeetsPrefs(prefs)) else SubsequenceRefl(s); s
  }

  /** Lines 37-40: the entries of the chosen difficulty; with none chosen, all of them. */
  function DifficultyStage(s: seq<Entry>, difficulty: string): (r: seq<Entry>)
    ensures forall e :: e in r <==> e in s && DifficultyOk(difficulty, e)
    ensures Subsequence(r, s)
  {
    if difficulty != "" then Filter(s, MeetsDifficulty(difficulty)) else SubsequenceRefl(s); s
  }

  /** Lines 42-45: the entries within the cook time; at the ceiling of 120, all of them. */
  function CookTimeStage(s: seq<Entry>, maxCookTime: int): (r: seq<Entry>)
    ensures forall e :: e in r <==> e in s && CookTimeOk(maxCookTime, e)
    ensures Subsequence(r, s)
  {
    if maxCookTime < CookTimeCeiling then Filter(s, WithinCookTime(maxCookTime)) else SubsequenceRefl(s); s
  }

  /** Lines 47-51: the entries with the chosen servings; with none chosen, all of them. */
  function ServingsStage(s: seq<Entry>, servings: Option<int>): (r: seq<Entry>)
    ensures forall e :: e in r <==> e in s && ServingsOk(servings, e)
    ensures Subsequence(r, s)
  {
    if servings.Some? then Filter(s, MeetsServings(servings.value)) else SubsequenceRefl(s); s
  }

  /**
   * Dietary, difficulty, cook-time and servings stages, in the source's
   * order: the entries passing every active filter, in their input order.
   */
  function Refine(s: seq<Entry>, f: Filters): (r: seq<Entry>)
    ensures forall e :: e in r <==> e in s && Passes(f, e)
    ensures Subsequence(r, s)
  {
    var s1 := DietaryStage(s, f.dietaryPrefs);
    var s2 := DifficultyStage(s1, f.difficultyFilter);
    var s3 := CookTimeStage(s2, f.maxCookTime);
    var s4 := ServingsStage(s3, f.servingsFilter);
    SubsequenceTrans(s2, s1, s);
    SubsequenceTrans(s3, s2, s);
    SubsequenceTrans(s4, s3, s);
    s4
  }

  /** Every active filter, as one predicate. */
  predicate Passes(f: Filters, e: Entry) {
    DietaryOk(f.dietaryPrefs, e) && DifficultyOk(f.difficultyFilter, e)
    && CookTimeOk(f.maxCookTime, e) && ServingsOk(f.servingsFilter, e)
  }

  function PassesAll(f: Filters): Entry -> bool { e => Passes(f, e) }

  /** The guarded stages amount to one filter by "satisfies every active filter". */
  lemma RefineIsFilter(s: seq<Entry>, f: Filters)
    ensures Refine(s, f) == Filter(s, PassesAll(f))
  {
    var p1 := (e: Entry) => DietaryOk(f.dietaryPrefs, e);
    var p2 := (e: Entry) => DifficultyOk(f.difficultyFilter, e);
    var p3 := (e: Entry) => CookTimeOk(f.maxCookTime, e);
    var p4 := (e: Entry) => ServingsOk(f.servingsFilter, e);
    var s1 := DietaryStage(s, f.dietaryPrefs);
    if |f.dietaryPrefs| > 0 { FilterExt(s, MeetsPrefs(f.dietaryPrefs), p1); } else { FilterKeepsAll(s, p1); }
    var s2 := DifficultyStage(s1, f.difficultyFilter);
    if f.difficultyFilter != "" { FilterExt(s1, MeetsDifficulty(f.difficultyFilter), p2); } else { FilterKeepsAll(s1, p2); }
    var s3 := CookTimeStage(s2, f.maxCookTime);
    if f.maxCookTime < CookTimeCeiling { FilterExt(s2, WithinCookTime(f.maxCookTime), p3); } else { FilterKeepsAll(s2, p3); }
    if f.servingsFilter.Some? {
      FilterExt(s3, MeetsServings(f.servingsFilter.value), p4);
    } else {
      FilterKeepsAll(s3, p4);
    }
    var p12 := (e: Entry) => p1(e) && p2(e);
    var p123 := (e: Entry) => p12(e) && p3(e);
    FilterFuse(s, p1, p2, p12);
    FilterFuse(s, p12, p3, p123);
    FilterFuse(s, p123, p4, PassesAll(f));
  }

  /** The difficulty, cook-time and servings stages commute with one another. */
  lemma LaterStagesCommute(s: seq<Entry>, difficulty: string, maxCookTime: int, servings: Option<int>)
    ensures CookTimeStage(DifficultyStage(s, difficulty), maxCookTime)
         == DifficultyStage(CookTimeStage(s, maxCookTime), difficulty)
    ensures ServingsStage(DifficultyStage(s, difficulty), servings)
         == DifficultyStage(ServingsStage(s, servings), difficulty)
    ensures ServingsStage(CookTimeStage(s, maxCookTime), servings)
         == CookTimeStage(ServingsStage(s, servings), maxCookTime)
  {
    FilterCommute(s, MeetsDifficulty(difficulty), WithinCookTime(maxCookTime));
    if servings.Some? {
      FilterCommute(s, MeetsDifficulty(difficulty), MeetsServings(servings.value));
      FilterCommute(s, WithinCookTime(maxCookTime), MeetsServings(servings.value));
    }
  }

  /** Dietary filtering is AND: one preference the recipe lacks excludes it. */
  lemma DietaryIsConjunctive(s: seq<Entry>, prefs: seq<string>, e: Entry)
    requires e in s
    ensures e in DietaryStage(s, prefs) <==> forall pref :: pref in prefs ==> pref in e.recipe.dietary
  {
  }

  // ---------------------------------------------------------------------------
  // filterRecipes (lines 2-54)
  // ---------------------------------------------------------------------------

  /** The dietary stage is a conjunction: a recipe tagged only "vegan" fails the prefs ["vegan", "gluten-free"]. */
  lemma VeganOnlyFailsTwoPrefs(s: seq<Entry>, e: Entry)
    requires e in s && e.recipe.dietary == ["vegan"]
    ensures e !in DietaryStage(s, ["vegan", "gluten-free"])
  {
    DietaryIsConjunctive(s, ["vegan", "gluten-free"], e);
    assert "gluten-free" in ["vegan", "gluten-free"];
    assert "gluten-free" !in e.recipe.dietary;
  }

  /**
   * The util `filterRecipes`: with a selection every recipe is scored and ranked,
   * zero matches included; then the four stages run. It works on a copy of its
   * input; as a value function it cannot change it.
   */
  function FilterRecipes(recipes: seq<Recipe>, f: Filters): (r: seq<Entry>)
    ensures |r| <= |recipes|
    ensures forall e :: e in r ==> e.recipe in recipes && Passes(f, e)
    ensures |f.selectedIngredients| > 0 ==> forall e :: e in r ==> e == Score(e.recipe, f.selectedIngredients)
    ensures |f.selectedIngredients| == 0 ==> forall e :: e in r ==> e == Listed(e.recipe)
  {
    var ranked :=
      if |f.selectedIngredients| > 0 then RankedByIngredients(recipes, f.selectedIngredients)
      else Unscored(recipes);
    RankMembers(ScoreAll(recipes, f.selectedIngredients));
    UnscoredMembers(recipes);
    ScoreAllMembers(recipes, f.selectedIngredients);
    SubsequenceLength(Refine(ranked, f), ranked);
    Refine(ranked, f)
  }

  /** Sorting neither adds nor drops an entry. */
  lemma RankMembers(s: seq<Entry>)
    ensures forall e :: e in Rank(s) <==> e in s
  {
    forall e ensures e in Rank(s) <==> e in s {
      assert e in Rank(s) <==> e in multiset(Rank(s));
      assert e in s <==> e in multiset(s);
    }
  }

  /** Every scored entry is a recipe of the input, scored against the selection. */
  lemma ScoreAllMembers(recipes: seq<Recipe>, selection: seq<string>)
    ensures forall e :: e in ScoreAll(recipes, selection) ==> e.recipe in recipes && e == Score(e.recipe, selection)
  {
    forall e | e in ScoreAll(recipes, selection) ensures e.recipe in recipes && e == Score(e.recipe, selection) {
      var i :| 0 <= i < |recipes| && ScoreAll(recipes, selection)[i] == e;
    }
  }

  /** Every plain entry is a recipe of the input, unannotated. */
  lemma UnscoredMembers(recipes: seq<Recipe>)
    ensures forall e :: e in Unscored(recipes) ==> e.recipe in recipes && e == Listed(e.recipe)
  {
    forall e | e in Unscored(recipes) ensures e.recipe in recipes && e == Listed(e.recipe) {
      var i :| 0 <= i < |recipes| && Unscored(recipes)[i] == e;
    }
  }

  /** The ingredient stage keeps every recipe: a ranked permutation of the scored input. */
  lemma RankedKeepsEveryRecipe(recipes: seq<Recipe>, selection: seq<string>)
    ensures multiset(RankedByIngredients(recipes, selection)) == multiset(ScoreAll(recipes, selection))
    ensures |RankedByIngredients(recipes, selection)| == |recipes|
    ensures NonIncreasing(RankedByIngredients(recipes, selection))
    ensures forall k: nat :: Filter(RankedByIngredients(recipes, selection), KeyIs(k))
                          == Filter(ScoreAll(recipes, selection), KeyIs(k))
  {
    forall k: nat ensures Filter(RankedByIngredients(recipes, selection), KeyIs(k))
                       == Filter(ScoreAll(recipes, selection), KeyIs(k)) {
      RankStable(ScoreAll(recipes, selection), k);
    }
  }

  /**
   * What the util pipeline returns with a non-empty selection: exactly the scored
   * recipes that pass every active filter, highest matchCount first, in catalog
   * order among equal counts, each with its true matchCount.
   */
  lemma FilterRecipesScored(recipes: seq<Recipe>, f: Filters)
    requires |f.selectedIngredients| > 0
    ensures var r := FilterRecipes(recipes, f);
      && Subsequence(r, RankedByIngredients(recipes, f.selectedIngredients))
      && NonIncreasing(r)
      && (forall e :: e in r <==> e in ScoreAll(recipes, f.selectedIngredients) && Passes(f, e))
      && (forall e :: e in r ==>
            e.recipe in recipes && e.Scored? && e.matchCount == MatchCount(e.recipe.ingredients, f.selectedIngredients))
      && (forall k: nat :: Subsequence(Filter(r, KeyIs(k)), ScoreAll(recipes, f.selectedIngredients)))
  {
    var sel := f.selectedIngredients;
    var scored := ScoreAll(recipes, sel);
    var ranked := RankedByIngredients(recipes, sel);
    var r := FilterRecipes(recipes, f);
    RefineIsFilter(ranked, f);
    FilterNonIncreasing(ranked, PassesAll(f));
    forall e | e in scored ensures e.recipe in recipes && e.matchCount == MatchCount(e.recipe.ingredients, sel) {
      var i :| 0 <= i < |scored| && scored[i] == e;
    }
    assert forall e :: e in ranked <==> e in multiset(scored);
    forall k: nat ensures Subsequence(Filter(r, KeyIs(k)), scored) {
      FilterCommute(ranked, PassesAll(f), KeyIs(k));
      RankStable(scored, k);
      var byK := Filter(scored, KeyIs(k));
      SubsequenceTrans(Filter(byK, PassesAll(f)), byK, scored);
    }
  }

  /** With no selection and every filter unset, the recipes come back unchanged and unscored. */
  lemma FilterRecipesInactive(recipes: seq<Recipe>)
    ensures FilterRecipes(recipes, Filters([], [], "", CookTimeCeiling, None)) == Unscored(recipes)
  {
  }

  // ---------------------------------------------------------------------------
  // getMissingIngredients (lines 56-63)
  // ---------------------------------------------------------------------------

  /** The recipe's ingredients that no selected ingredient matches, in recipe order. */
  function MissingIngredients(recipe: Recipe, selection: seq<string>): (r: seq<string>)
    ensures forall x :: x in r <==> x in recipe.ingredients && !AnyMatch(x, selection)
    ensures Subsequence(r, recipe.ingredients)
    ensures |r| + MatchCount(recipe.ingredients, selection) == |recipe.ingredients|
  {
    FilterSplitCount(recipe.ingredients, Matched(selection), Unmatched(selection));
    Filter(recipe.ingredients, Unmatched(selection))
  }

  /** The util version has no guard: with no selection every ingredient is missing. */
  lemma MissingWithoutSelection(recipe: Recipe)
    ensures MissingIngredients(recipe, []) == recipe.ingredients
  {
    FilterKeepsAll(recipe.ingredients, Unmatched([]));
  }

  // ---------------------------------------------------------------------------
  // getRecipeSuggestions (lines 65-76)
  // ---------------------------------------------------------------------------

  /** `ratings[r.id] >= 4`; an id without a rating compares as false. */
  predicate RatedHigh(ratings: map<RecipeId, int>, r: Recipe) {
    r.id in ratings && ratings[r.id] >= 4
  }

  /** `!ratings[r.id]`: no rating, or the falsy rating 0. */
  predicate Unrated(ratings: map<RecipeId, int>, r: Recipe)
    ensures Unrated(ratings, r) ==> !RatedHigh(ratings, r)
  {
    r.id !in ratings || ratings[r.id] == 0
  }

  function RatedHighIn(ratings: map<RecipeId, int>): Recipe -> bool { r => RatedHigh(ratings, r) }

  /**
   * Shares a cuisine, or a dietary tag, with some highly rated recipe. The
   * source collects the rated cuisines and tags into deduplicated lists
   * first; the test is the same as asking recipe by recipe.
   */
  predicate Similar(rated: seq<Recipe>, r: Recipe)
    ensures Similar(rated, r) <==>
      exists h :: h in rated && (h.cuisine == r.cuisine || exists d :: d in r.dietary && d in h.dietary)
  {
    r.cuisine in (set h | h in rated :: h.cuisine)
    || exists d :: d in r.dietary && d in (set h, t | h in rated && t in h.dietary :: t)
  }

  predicate Candidate(rated: seq<Recipe>, ratings: map<RecipeId, int>, r: Recipe) {
    Unrated(ratings, r) && Similar(rated, r)
  }

  function IsCandidate(rated: seq<Recipe>, ratings: map<RecipeId, int>): Recipe -> bool {
    r => Candidate(rated, ratings, r)
  }

  /**
   * Up to three recipes, in input order, that have no rating yet and share a
   * cuisine or a dietary tag with a recipe rated 4 or more; none when no
   * recipe is rated that high.
   */
  function RecipeSuggestions(recipes: seq<Recipe>, ratings: map<RecipeId, int>): (r: seq<Recipe>)
    ensures |r| <= 3
    ensures Subsequence(r, recipes)
    ensures (forall x :: x in recipes ==> !RatedHigh(ratings, x)) ==> r == []
    ensures forall x :: x in r ==> Unrated(ratings, x) && !RatedHigh(ratings, x)
    ensures forall x :: x in r ==> Similar(Filter(recipes, RatedHighIn(ratings)), x)
    ensures |r| < 3 ==> forall x :: x in recipes && Candidate(Filter(recipes, RatedHighIn(ratings)), ratings, x) ==> x in r
    ensures Filter(recipes, RatedHighIn(ratings)) != [] ==>
      var candidates := Filter(recipes, IsCandidate(Filter(recipes, RatedHighIn(ratings)), ratings));
      r <= candidates && |r| == Min(3, |candidates|)
  {
    var rated := Filter(recipes, RatedHighIn(ratings));
    if |rated| == 0 then []
    else
      assert rated[0] in rated;
      var candidates := Filter(recipes, IsCandidate(rated, ratings));
      var r := Take(candidates, 3);
      assert forall x :: x in r ==> x in candidates by {
        forall x | x in r ensures x in candidates {
          var i :| 0 <= i < |r| && r[i] == x;
          assert candidates[i] == x;
        }
      }
      assert Subsequence(r, candidates) by { TakeSubsequence(candidates, 3); }
      SubsequenceTrans(r, candidates, recipes);
      r
  }

  lemma TakeSubsequence<T>(s: seq<T>, n: nat)
    ensures Subsequence(Take(s, n), s)
  {
    PrefixSubsequence(Take(s, n), s);
  }

  lemma {:induction false} PrefixSubsequence<T>(a: seq<T>, b: seq<T>)
    requires a <= b
    ensures Subsequence(a, b)
    decreases |a|
  {
    if a != [] {
      PrefixSubsequence(a[1..], b[1..]);
    }
  }
}
