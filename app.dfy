/**
 * The application component (src/App.jsx): the session state kept in React
 * `useState` hooks, the handlers that change it, and the pure helpers the page
 * renders from. The catalog (`RECIPES`) is a parameter of the session.
 */
module App {
  import opened Wrappers
  import opened Strings
  import opened Seqs
  import opened Matching
  import opened Recipes
  import opened RecipeFilters
  import Substitutions

  // ---------------------------------------------------------------------------
  // filterRecipes (lines 167-215)
  // ---------------------------------------------------------------------------

  /** The test of line 187, `recipe.matchCount > 0`, as a callback. */
  function MatchesSome(): Entry -> bool {
    e => HasMatch(e)
  }

  /**
   * The recipes the page shows. Unlike the util version, a non-empty selection
   * drops the recipes that match no selected ingredient before the stable sort.
   */
  function Shown(catalog: seq<Recipe>, f: Filters): (r: seq<Entry>)
    ensures |r| <= |catalog|
    ensures forall e :: e in r ==> e.recipe in catalog && Passes(f, e)
    ensures |f.selectedIngredients| > 0 ==>
      forall e :: e in r ==> e == Score(e.recipe, f.selectedIngredients) && HasMatch(e)
    ensures |f.selectedIngredients| == 0 ==> forall e :: e in r ==> e == Listed(e.recipe)
  {
    var scored := ScoreAll(catalog, f.selectedIngredients);
    var ranked :=
      if |f.selectedIngredients| > 0 then Rank(Filter(scored, MatchesSome()))
      else Unscored(catalog);
    RankMembers(Filter(scored, MatchesSome()));
    ScoreAllMembers(catalog, f.selectedIngredients);
    UnscoredMembers(catalog);
    SubsequenceLength(Filter(scored, MatchesSome()), scored);
    SubsequenceLength(Refine(ranked, f), ranked);
    Refine(ranked, f)
  }

  /**
   * The page's filter is the util `filterRecipes` followed by the
   * `matchCount > 0` filter when ingredients are selected, and the util
   * `filterRecipes` itself otherwise.
   */
  lemma ShownIsUtilWithMatches(catalog: seq<Recipe>, f: Filters)
    ensures Shown(catalog, f) ==
      if |f.selectedIngredients| > 0 then Filter(RecipeFilters.FilterRecipes(catalog, f), MatchesSome())
      else RecipeFilters.FilterRecipes(catalog, f)
  {
    var sel := f.selectedIngredients;
    if |sel| > 0 {
      var scored := ScoreAll(catalog, sel);
      RankFilter(scored, MatchesSome());
      RefineIsFilter(Rank(Filter(scored, MatchesSome())), f);
      RefineIsFilter(Rank(scored), f);
      FilterCommute(Rank(scored), MatchesSome(), PassesAll(f));
    }
  }

  /**
   * With ingredients selected, the page shows exactly the scored recipes that
   * match at least one selected ingredient and pass every active filter, each
   * with its true match count, highest count first and in catalog order among
   * equal counts.
   */
  lemma ShownWithSelection(catalog: seq<Recipe>, f: Filters)
    requires |f.selectedIngredients| > 0
    ensures var r := Shown(catalog, f);
      && NonIncreasing(r)
      && (forall e :: e in r <==> e in ScoreAll(catalog, f.selectedIngredients) && HasMatch(e) && Passes(f, e))
      && (forall e :: e in r ==>
            e.recipe in catalog && e.Scored?
            && e.matchCount == MatchCount(e.recipe.ingredients, f.selectedIngredients)
            && 1 <= e.matchCount <= |e.recipe.ingredients|)
      && (forall k: nat :: Subsequence(Filter(r, KeyIs(k)), ScoreAll(catalog, f.selectedIngredients)))
  {
    var sel := f.selectedIngredients;
    var util := RecipeFilters.FilterRecipes(catalog, f);
    var r := Shown(catalog, f);
    ShownIsUtilWithMatches(catalog, f);
    FilterRecipesScored(catalog, f);
    FilterNonIncreasing(util, MatchesSome());
    forall k: nat ensures Subsequence(Filter(r, KeyIs(k)), ScoreAll(catalog, sel)) {
      FilterCommute(util, MatchesSome(), KeyIs(k));
      var byK := Filter(util, KeyIs(k));
      SubsequenceTrans(Filter(byK, MatchesSome()), byK, ScoreAll(catalog, sel));
    }
  }

  /** Without a selection, the page shows the catalog recipes that pass every active filter, in catalog order. */
  lemma ShownWithoutSelection(catalog: seq<Recipe>, f: Filters)
    requires |f.selectedIngredients| == 0
    ensures Shown(catalog, f) == Filter(Unscored(catalog), PassesAll(f))
    ensures RecipesOf(Shown(catalog, f)) == Filter(catalog, ListedPasses(f))
  {
    RefineIsFilter(Unscored(catalog), f);
    UnscoredFilter(catalog, f);
  }

  /** With every filter unset the page shows the whole catalog, unscored and in order. */
  lemma ShownInactive(catalog: seq<Recipe>)
    ensures Shown(catalog, Filters([], [], "", CookTimeCeiling, None)) == Unscored(catalog)
  {
  }

  /** The filter test applied to a catalog recipe before it is scored. */
  function ListedPasses(f: Filters): Recipe -> bool {
    r => Passes(f, Listed(r))
  }

  lemma {:induction false} UnscoredFilter(catalog: seq<Recipe>, f: Filters)
    ensures RecipesOf(Filter(Unscored(catalog), PassesAll(f))) == Filter(catalog, ListedPasses(f))
    decreases |catalog|
  {
    if catalog != [] {
      var u := Unscored(catalog);
      var x := Listed(catalog[0]);
      assert u[0] == x && u[1..] == Unscored(catalog[1..]);
      UnscoredFilter(catalog[1..], f);
      var rest := Filter(Unscored(catalog[1..]), PassesAll(f));
      if Passes(f, x) {
        assert Filter(u, PassesAll(f)) == [x] + rest;
        assert RecipesOf([x] + rest) == [catalog[0]] + RecipesOf(rest);
      } else {
        assert Filter(u, PassesAll(f)) == rest;
      }
    }
  }

  // ---------------------------------------------------------------------------
  // getMissingIngredients (lines 227-235)
  // ---------------------------------------------------------------------------

  /**
   * The recipe's ingredients no selected ingredient matches, in recipe order;
   * nothing at all while the selection is empty.
   */
  function MissingFor(recipe: Recipe, selection: seq<string>): (r: seq<string>)
    ensures |selection| == 0 ==> r == []
    ensures |selection| > 0 ==> forall x :: x in r <==> x in recipe.ingredients && !AnyMatch(x, selection)
    ensures |selection| > 0 ==> Subsequence(r, recipe.ingredients)
    ensures |selection| > 0 ==> |r| + MatchCount(recipe.ingredients, selection) == |recipe.ingredients|
  {
    if |selection| == 0 then [] else MissingIngredients(recipe, selection)
  }

  /** The page and the util helper differ only on an empty selection: one shows nothing, the other everything. */
  lemma MissingForEmptySelection(recipe: Recipe)
    ensures MissingFor(recipe, []) == []
    ensures MissingIngredients(recipe, []) == recipe.ingredients
  {
    MissingWithoutSelection(recipe);
  }

  // ---------------------------------------------------------------------------
  // getSubstitutionsForIngredient (lines 238-246)
  // ---------------------------------------------------------------------------

  /** The key test of line 241, for one lower-cased ingredient. */
  function RelatedKey(ing: string): string -> bool {
    key => Includes(ing, key) || Includes(key, ing)
  }

  /**
   * The substitutes of the first table row whose key and the lower-cased
   * ingredient contain one another, or none.
   */
  function SubstitutesFor(ingredient: string): (r: seq<string>)
    ensures r == [] <==>
      forall k :: 0 <= k < |Substitutions.Table| ==> !RelatedKey(Lower(ingredient))(Substitutions.Table[k].0)
    ensures r != [] ==>
      exists k :: FirstHitAt(Substitutions.Table, RelatedKey(Lower(ingredient)), k) && r == Substitutions.Table[k].1
  {
    Substitutions.TableShape();
    match FirstHit(Substitutions.Table, RelatedKey(Lower(ingredient)))
    case Some(subs) => subs
    case None => []
  }

  /** The loop of lines 240-245: scan the rows in order and return at the first related key. */
  method GetSubstitutionsForIngredient(ingredient: string) returns (subs: seq<string>)
    ensures subs == SubstitutesFor(ingredient)
  {
    var ing := Lower(ingredient);
    var table := Substitutions.Table;
    var i := 0;
    while i < |table|
      invariant 0 <= i <= |table|
      invariant forall j :: 0 <= j < i ==> !RelatedKey(ing)(table[j].0)
    {
      var (key, row) := table[i];
      if Includes(ing, key) || Includes(key, ing) {
        FirstHitIs(table, RelatedKey(ing), i);
        return row;
      }
      i := i + 1;
    }
    return [];
  }

  /** The lookup ignores the case of the ingredient. */
  lemma SubstitutesIgnoreCase(ingredient: string)
    ensures SubstitutesFor(Lower(ingredient)) == SubstitutesFor(ingredient)
  {
    assert Lower(Lower(ingredient)) == Lower(ingredient);
  }

  /** "Cream Cheese" gets the `cheese` row: `cheese` is listed before `cream`. */
  lemma CreamCheeseGetsCheese(ingredient: string)
    requires ingredient == "Cream Cheese"
    ensures SubstitutesFor(ingredient) == ["nutritional yeast", "vegan cheese", "cashew cream"]
  {
    assert Lower(ingredient) == "cream cheese";
    CreamCheeseScan(Lower(ingredient));
    assert Substitutions.Table[7].1 == ["nutritional yeast", "vegan cheese", "cashew cream"];
  }

  /** "buttermilk" gets the `butter` row: `butter` is listed before `milk`. */
  lemma ButtermilkGetsButter(ingredient: string)
    requires ingredient == "buttermilk"
    ensures SubstitutesFor(ingredient) == ["olive oil", "coconut oil", "margarine"]
  {
    assert Lower(ingredient) == "buttermilk";
    ButtermilkScan(Lower(ingredient));
  }

  /** A key may also contain the ingredient: "soy" gets the `soy sauce` row. */
  lemma SoyGetsSoySauce(ingredient: string)
    requires ingredient == "soy"
    ensures SubstitutesFor(ingredient) == ["tamari", "coconut aminos", "worcestershire sauce"]
  {
    assert Lower(ingredient) == "soy";
    SoyScan(Lower(ingredient));
    assert Substitutions.Table[4].1 == ["tamari", "coconut aminos", "worcestershire sauce"];
  }

  /** The empty string is contained in every key, so it gets the first row. */
  lemma BlankGetsFirstRow(ingredient: string)
    requires ingredient == ""
    ensures SubstitutesFor(ingredient) == ["olive oil", "coconut oil", "margarine"]
  {
    BlankScan(Lower(ingredient));
  }

  /** "cheddar cheese" gets the `cheese` row. */
  lemma CheddarGetsCheese(ingredient: string)
    requires ingredient == "cheddar cheese"
    ensures SubstitutesFor(ingredient) == ["nutritional yeast", "vegan cheese", "cashew cream"]
  {
    assert Lower(ingredient) == "cheddar cheese";
    CheddarScan(Lower(ingredient));
    assert Substitutions.Table[7].1 == ["nutritional yeast", "vegan cheese", "cashew cream"];
  }

  // The concrete lookups. Each `...Miss{j}` lemma shows that row j's key and
  // the ingredient contain neither one another; each `...Scan` lemma puts
  // these together with the first related key.
  // There is one lemma per keyword on purpose: facts about several literal
  // strings in a single proof make the solver's work grow much faster than
  // their number, and a scan proved in one piece does not fit the resource
  // limit, so each miss is proved on its own and the scan only combines
  // the results.

  /** The scan for "cream cheese" stops at key "cheese", entry 7 of the table. */
  lemma CreamCheeseScan(name: string)
    requires name == "cream cheese"
    ensures FirstHit(Substitutions.Table, RelatedKey(name)) == Some(Substitutions.Table[7].1)
  {
    forall j | 0 <= j < 7 ensures !Includes(name, Substitutions.Table[j].0) && !Includes(Substitutions.Table[j].0, name) {
      if j == 0 {
        CreamCheeseMiss0(name);
      } else if j == 1 {
        CreamCheeseMiss1(name);
      } else if j == 2 {
        CreamCheeseMiss2(name);
      } else if j == 3 {
        CreamCheeseMiss3(name);
      } else if j == 4 {
        CreamCheeseMiss4(name);
      } else if j == 5 {
        CreamCheeseMiss5(name);
      } else {
        CreamCheeseMiss6(name);
      }
    }
    assert Substitutions.Table[7].0 == "cheese";
    OccursIncluded(name, "cheese", 6);
    FirstHitIs(Substitutions.Table, RelatedKey(name), 7);
  }

  lemma CreamCheeseMiss0(name: string)
    requires name == "cream cheese"
    ensures !Includes(name, Substitutions.Table[0].0) && !Includes(Substitutions.Table[0].0, name)
  {
    assert Substitutions.Table[0].0 == "butter";
    AbsentCharNotIncluded(name, "butter", 0);
    LongerNotIncluded("butter", name);
  }

  lemma CreamCheeseMiss1(name: string)
    requires name == "cream cheese"
    ensures !Includes(name, Substitutions.Table[1].0) && !Includes(Substitutions.Table[1].0, name)
  {
    assert Substitutions.Table[1].0 == "milk";
    AbsentCharNotIncluded(name, "milk", 1);
    LongerNotIncluded("milk", name);
  }

  lemma CreamCheeseMiss2(name: string)
    requires name == "cream cheese"
    ensures !Includes(name, Substitutions.Table[2].0) && !Includes(Substitutions.Table[2].0, name)
  {
    assert Substitutions.Table[2].0 == "egg";
    AbsentCharNotIncluded(name, "egg", 1);
    LongerNotIncluded("egg", name);
  }

  lemma CreamCheeseMiss3(name: string)
    requires name == "cream cheese"
    ensures !Includes(name, Substitutions.Table[3].0) && !Includes(Substitutions.Table[3].0, name)
  {
    assert Substitutions.Table[3].0 == "flour";
    AbsentCharNotIncluded(name, "flour", 0);
    LongerNotIncluded("flour", name);
  }

  lemma CreamCheeseMiss4(name: string)
    requires name == "cream cheese"
    ensures !Includes(name, Substitutions.Table[4].0) && !Includes(Substitutions.Table[4].0, name)
  {
    assert Substitutions.Table[4].0 == "soy sauce";
    AbsentCharNotIncluded(name, "soy sauce", 1);
    LongerNotIncluded("soy sauce", name);
  }

  lemma CreamCheeseMiss5(name: string)
    requires name == "cream cheese"
    ensures !Includes(name, Substitutions.Table[5].0) && !Includes(Substitutions.Table[5].0, name)
  {
    assert Substitutions.Table[5].0 == "chicken";
    AbsentCharNotIncluded(name, "chicken", 2);
    LongerNotIncluded("chicken", name);
  }

  lemma CreamCheeseMiss6(name: string)
    requires name == "cream cheese"
    ensures !Includes(name, Substitutions.Table[6].0) && !Includes(Substitutions.Table[6].0, name)
  {
    assert Substitutions.Table[6].0 == "beef";
    AbsentCharNotIncluded(name, "beef", 0);
    LongerNotIncluded("beef", name);
  }

  /** The scan for "buttermilk" stops at key "butter", entry 0 of the table. */
  lemma ButtermilkScan(name: string)
    requires name == "buttermilk"
    ensures FirstHit(Substitutions.Table, RelatedKey(name)) == Some(Substitutions.Table[0].1)
  {
    assert Substitutions.Table[0].0 == "butter";
    OccursIncluded(name, "butter", 0);
    FirstHitIs(Substitutions.Table, RelatedKey(name), 0);
  }

  /** The scan for "soy" stops at key "soy sauce", entry 4 of the table. */
  lemma SoyScan(name: string)
    requires name == "soy"
    ensures FirstHit(Substitutions.Table, RelatedKey(name)) == Some(Substitutions.Table[4].1)
  {
    forall j | 0 <= j < 4 ensures !Includes(name, Substitutions.Table[j].0) && !Includes(Substitutions.Table[j].0, name) {
      if j == 0 {
        SoyMiss0(name);
      } else if j == 1 {
        SoyMiss1(name);
      } else if j == 2 {
        SoyMiss2(name);
      } else {
        SoyMiss3(name);
      }
    }
    assert Substitutions.Table[4].0 == "soy sauce";
    OccursIncluded("soy sauce", name, 0);
    FirstHitIs(Substitutions.Table, RelatedKey(name), 4);
  }

  lemma SoyMiss0(name: string)
    requires name == "soy"
    ensures !Includes(name, Substitutions.Table[0].0) && !Includes(Substitutions.Table[0].0, name)
  {
    assert Substitutions.Table[0].0 == "butter";
    LongerNotIncluded(name, "butter");
    AbsentCharNotIncluded("butter", name, 0);
  }

  lemma SoyMiss1(name: string)
    requires name == "soy"
    ensures !Includes(name, Substitutions.Table[1].0) && !Includes(Substitutions.Table[1].0, name)
  {
    assert Substitutions.Table[1].0 == "milk";
    LongerNotIncluded(name, "milk");
    AbsentCharNotIncluded("milk", name, 0);
  }

  lemma SoyMiss2(name: string)
    requires name == "soy"
    ensures !Includes(name, Substitutions.Table[2].0) && !Includes(Substitutions.Table[2].0, name)
  {
    assert Substitutions.Table[2].0 == "egg";
    AbsentCharNotIncluded(name, "egg", 0);
    AbsentCharNotIncluded("egg", name, 0);
  }

  lemma SoyMiss3(name: string)
    requires name == "soy"
    ensures !Includes(name, Substitutions.Table[3].0) && !Includes(Substitutions.Table[3].0, name)
  {
    assert Substitutions.Table[3].0 == "flour";
    LongerNotIncluded(name, "flour");
    AbsentCharNotIncluded("flour", name, 0);
  }

  /** The scan for "" stops at key "butter", entry 0 of the table. */
  lemma BlankScan(name: string)
    requires name == ""
    ensures FirstHit(Substitutions.Table, RelatedKey(name)) == Some(Substitutions.Table[0].1)
  {
    assert Substitutions.Table[0].0 == "butter";
    OccursIncluded("butter", name, 0);
    FirstHitIs(Substitutions.Table, RelatedKey(name), 0);
  }

  /** The scan for "cheddar cheese" stops at key "cheese", entry 7 of the table. */
  lemma CheddarScan(name: string)
    requires name == "cheddar cheese"
    ensures FirstHit(Substitutions.Table, RelatedKey(name)) == Some(Substitutions.Table[7].1)
  {
    forall j | 0 <= j < 7 ensures !Includes(name, Substitutions.Table[j].0) && !Includes(Substitutions.Table[j].0, name) {
      if j == 0 {
        CheddarMiss0(name);
      } else if j == 1 {
        CheddarMiss1(name);
      } else if j == 2 {
        CheddarMiss2(name);
      } else if j == 3 {
        CheddarMiss3(name);
      } else if j == 4 {
        CheddarMiss4(name);
      } else if j == 5 {
        CheddarMiss5(name);
      } else {
        CheddarMiss6(name);
      }
    }
    assert Substitutions.Table[7].0 == "cheese";
    OccursIncluded(name, "cheese", 8);
    FirstHitIs(Substitutions.Table, RelatedKey(name), 7);
  }

  lemma CheddarMiss0(name: string)
    requires name == "cheddar cheese"
    ensures !Includes(name, Substitutions.Table[0].0) && !Includes(Substitutions.Table[0].0, name)
  {
    assert Substitutions.Table[0].0 == "butter";
    AbsentCharNotIncluded(name, "butter", 0);
    LongerNotIncluded("butter", name);
  }

  lemma CheddarMiss1(name: string)
    requires name == "cheddar cheese"
    ensures !Includes(name, Substitutions.Table[1].0) && !Includes(Substitutions.Table[1].0, name)
  {
    assert Substitutions.Table[1].0 == "milk";
    AbsentCharNotIncluded(name, "milk", 0);
    LongerNotIncluded("milk", name);
  }

  lemma CheddarMiss2(name: string)
    requires name == "cheddar cheese"
    ensures !Includes(name, Substitutions.Table[2].0) && !Includes(Substitutions.Table[2].0, name)
  {
    assert Substitutions.Table[2].0 == "egg";
    AbsentCharNotIncluded(name, "egg", 1);
    LongerNotIncluded("egg", name);
  }

  lemma CheddarMiss3(name: string)
    requires name == "cheddar cheese"
    ensures !Includes(name, Substitutions.Table[3].0) && !Includes(Substitutions.Table[3].0, name)
  {
    assert Substitutions.Table[3].0 == "flour";
    AbsentCharNotIncluded(name, "flour", 0);
    LongerNotIncluded("flour", name);
  }

  lemma CheddarMiss4(name: string)
    requires name == "cheddar cheese"
    ensures !Includes(name, Substitutions.Table[4].0) && !Includes(Substitutions.Table[4].0, name)
  {
    assert Substitutions.Table[4].0 == "soy sauce";
    AbsentCharNotIncluded(name, "soy sauce", 1);
    LongerNotIncluded("soy sauce", name);
  }

  lemma CheddarMiss5(name: string)
    requires name == "cheddar cheese"
    ensures !Includes(name, Substitutions.Table[5].0) && !Includes(Substitutions.Table[5].0, name)
  {
    assert Substitutions.Table[5].0 == "chicken";
    AbsentCharNotIncluded(name, "chicken", 2);
    LongerNotIncluded("chicken", name);
  }

  lemma CheddarMiss6(name: string)
    requires name == "cheddar cheese"
    ensures !Includes(name, Substitutions.Table[6].0) && !Includes(Substitutions.Table[6].0, name)
  {
    assert Substitutions.Table[6].0 == "beef";
    AbsentCharNotIncluded(name, "beef", 0);
    LongerNotIncluded("beef", name);
  }

  // ---------------------------------------------------------------------------
  // The image upload checks (lines 61-69) and the merge of detected
  // ingredients (lines 110-121)
  // ---------------------------------------------------------------------------

  const MaxImageBytes: int := 5000000
  const InvalidTypeMessage: string := "Please upload a valid image file (JPG, PNG)"
  const TooLargeMessage: string := "Image too large. Please upload an image under 5MB."
  const NothingDetectedMessage: string := "No ingredients detected. Try a clearer image or add manually."

  /** At most this many detected ingredients are merged per image. */
  const DetectionLimit: nat := 10

  /** The message an upload is refused with, if any: the type is checked before the size. */
  function UploadProblem(mimeType: string, size: int): (r: Option<string>)
    ensures r.None? <==> "image/" <= mimeType && size <= MaxImageBytes
    ensures !("image/" <= mimeType) ==> r == Some(InvalidTypeMessage)
    ensures r == Some(TooLargeMessage) <==> "image/" <= mimeType && size > MaxImageBytes
  {
    if !("image/" <= mimeType) then Some(InvalidTypeMessage)
    else if size > MaxImageBytes then Some(TooLargeMessage)
    else None
  }

  /** Each item is appended in turn unless it is already there (lines 112-116). */
  function AppendNew(current: seq<string>, items: seq<string>): (r: seq<string>)
    ensures current <= r
    ensures |r| <= |current| + |items|
    ensures forall y :: y in r <==> y in current || y in items
    ensures NoDuplicates(current) ==> NoDuplicates(r)
    decreases |items|
  {
    if items == [] then current
    else
      var init := items[..|items| - 1];
      assert forall y :: y in items <==> y in init || y == items[|items| - 1];
      AppendIfAbsent(AppendNew(current, init), items[|items| - 1])
  }

  /** One more item is merged by push-unless-included. */
  lemma AppendNewSnoc(current: seq<string>, items: seq<string>, x: string)
    ensures AppendNew(current, items + [x]) == AppendIfAbsent(AppendNew(current, items), x)
  {
    var all := items + [x];
    assert all[..|all| - 1] == items && all[|all| - 1] == x;
  }

  /** The selection after an image: the first ten detected ingredients merged into it. */
  function MergeDetected(current: seq<string>, detected: seq<string>): (r: seq<string>)
    ensures current <= r
    ensures |r| <= |current| + DetectionLimit
    ensures forall y :: y in r <==> y in current || y in Take(detected, DetectionLimit)
    ensures NoDuplicates(current) ==> NoDuplicates(r)
  {
    AppendNew(current, Take(detected, DetectionLimit))
  }

  /**
   * The merge replaces the selection with the upload's copy plus the
   * detected names, so a name that joined the selection after the upload
   * started, and that the detection did not report, is gone afterwards.
   */
  lemma MergeDropsLaterAdditions(base: seq<string>, current: seq<string>, detected: seq<string>, x: string)
    requires x in current && x !in base
    requires x !in Take(detected, DetectionLimit)
    ensures x !in MergeDetected(base, detected)
  {
  }

  /** Merging an ingredient list twice adds nothing the first merge did not. */
  lemma {:induction false} AppendNewIdempotent(current: seq<string>, items: seq<string>)
    ensures AppendNew(AppendNew(current, items), items) == AppendNew(current, items)
  {
    var once := AppendNew(current, items);
    AppendNewKeeps(once, items);
  }

  lemma {:induction false} AppendNewKeeps(current: seq<string>, items: seq<string>)
    requires forall y :: y in items ==> y in current
    ensures AppendNew(current, items) == current
    decreases |items|
  {
    if items != [] {
      var init := items[..|items| - 1];
      assert forall y :: y in init ==> y in items;
      AppendNewKeeps(current, init);
      assert items[|items| - 1] in items;
    }
  }

  // ---------------------------------------------------------------------------
  // The state transitions of the handlers, as values
  // ---------------------------------------------------------------------------

  /** An ingredient as `addIngredient` stores it: non-empty, lower-case, without outer whitespace. */
  predicate Normalized(x: string) {
    x != [] && IsLowerCase(x) && !IsSpace(x[0]) && !IsSpace(x[|x| - 1])
  }

  /** `addIngredient` (lines 146-152): ignore a blank input, else add the trimmed lower-case name once. */
  function WithIngredient(selection: seq<string>, ing: string): (r: seq<string>)
    ensures Trim(ing) == [] ==> r == selection
    ensures Trim(ing) != [] ==> Normalized(Trim(Lower(ing))) && r == AppendIfAbsent(selection, Trim(Lower(ing)))
    ensures forall y :: y in r ==> y in selection || Normalized(y)
    ensures NoDuplicates(selection) ==> NoDuplicates(r)
  {
    if Trim(ing) == [] then selection
    else
      TrimLowerEmptyIff(ing);
      LowerIsLowerCase(ing);
      TrimKeepsLowerCase(Lower(ing));
      AppendIfAbsent(selection, Trim(Lower(ing)))
  }

  /** Adding the same input twice is the same as adding it once. */
  lemma AddIdempotent(selection: seq<string>, ing: string)
    ensures WithIngredient(WithIngredient(selection, ing), ing) == WithIngredient(selection, ing)
  {
    if Trim(ing) != [] {
      var x := Trim(Lower(ing));
      assert x in WithIngredient(selection, ing);
    }
  }

  /** The callback `i => i !== x`. */
  function Except(x: string): string -> bool {
    y => y != x
  }

  /**
   * `names.filter(n => n !== x)`: `removeIngredient` (lines 155-157) on the
   * selection, and the removal branch of `toggleDietary` (line 162) on the
   * preferences.
   */
  function Without(names: seq<string>, x: string): (r: seq<string>)
    ensures forall y :: y in r <==> y in names && y != x
    ensures Subsequence(r, names)
    ensures NoDuplicates(names) ==> NoDuplicates(r)
  {
    FilterNoDuplicates(names, Except(x));
    Filter(names, Except(x))
  }

  /** Removing what was just added restores a selection that did not hold it. */
  lemma RemoveUndoesAdd(selection: seq<string>, ing: string)
    requires Trim(ing) != []
    requires Trim(Lower(ing)) !in selection
    ensures Without(WithIngredient(selection, ing), Trim(Lower(ing))) == selection
  {
    var x := Trim(Lower(ing));
    FilterConcat(selection, [x], Except(x));
    FilterKeepsAll(selection, Except(x));
    assert Filter([x], Except(x)) == [];
    assert selection + [] == selection;
  }

  /** `toggleDietary` (lines 160-164): drop the preference if present, else append it. */
  function Toggled(prefs: seq<string>, pref: string): (r: seq<string>)
    ensures pref in prefs ==> (forall y :: y in r <==> y in prefs && y != pref) && Subsequence(r, prefs)
    ensures pref !in prefs ==> r == prefs + [pref]
    ensures NoDuplicates(prefs) ==> NoDuplicates(r)
  {
    if pref in prefs then Without(prefs, pref) else prefs + [pref]
  }

  /** Toggling twice restores a list without the preference, and the same set of preferences in any case. */
  lemma ToggleTwice(prefs: seq<string>, pref: string)
    ensures pref !in prefs ==> Toggled(Toggled(prefs, pref), pref) == prefs
    ensures forall y :: y in Toggled(Toggled(prefs, pref), pref) <==> y in prefs
  {
    if pref !in prefs {
      RemoveLast(prefs, pref);
    }
  }

  lemma RemoveLast(prefs: seq<string>, pref: string)
    requires pref !in prefs
    ensures Filter(prefs + [pref], Except(pref)) == prefs
  {
    FilterConcat(prefs, [pref], Except(pref));
    FilterKeepsAll(prefs, Except(pref));
    assert Filter([pref], Except(pref)) == [];
    assert prefs + [] == prefs;
  }

  /** The dietary stage only asks which preferences are present, so it is the same after a double toggle. */
  lemma ToggleTwiceSameDietary(prefs: seq<string>, pref: string, e: Entry)
    ensures DietaryOk(Toggled(Toggled(prefs, pref), pref), e) == DietaryOk(prefs, e)
  {
    ToggleTwice(prefs, pref);
    var back := Toggled(Toggled(prefs, pref), pref);
    assert |back| > 0 <==> |prefs| > 0 by {
      if |prefs| > 0 { assert prefs[0] in back; }
      if |back| > 0 { assert back[0] in prefs; }
    }
  }

  /** `!favorites[id]`: an absent id counts as not a favourite. */
  predicate IsFavorite(favorites: map<RecipeId, bool>, id: RecipeId) {
    id in favorites && favorites[id]
  }

  /** `toggleFavorite` (lines 218-220). */
  function FavoriteToggled(favorites: map<RecipeId, bool>, id: RecipeId): (r: map<RecipeId, bool>)
    ensures IsFavorite(r, id) == !IsFavorite(favorites, id)
    ensures id in r
    ensures forall other :: other != id ==> (other in r <==> other in favorites)
    ensures forall other :: other != id && other in favorites ==> r[other] == favorites[other]
  {
    favorites[id := !IsFavorite(favorites, id)]
  }

  /** Toggling the same recipe twice restores every recipe's favourite status. */
  lemma FavoriteTwice(favorites: map<RecipeId, bool>, id: RecipeId)
    ensures forall x :: IsFavorite(FavoriteToggled(FavoriteToggled(favorites, id), id), x) == IsFavorite(favorites, x)
  {
  }

  /** `setRating` (lines 223-225). */
  function Rated(ratings: map<RecipeId, int>, id: RecipeId, stars: int): (r: map<RecipeId, int>)
    ensures id in r && r[id] == stars
    ensures forall other :: other != id ==> (other in r <==> other in ratings)
    ensures forall other :: other != id && other in ratings ==> r[other] == ratings[other]
  {
    ratings[id := stars]
  }

  /** A recipe that has been given a non-zero rating is never suggested again. */
  lemma RatedNotSuggested(catalog: seq<Recipe>, ratings: map<RecipeId, int>, recipe: Recipe, stars: int)
    requires stars != 0
    ensures recipe !in RecipeSuggestions(catalog, Rated(ratings, recipe.id, stars))
  {
  }

  // ---------------------------------------------------------------------------
  // The session: the component's state hooks
  // ---------------------------------------------------------------------------

  class Session {
    const catalog: seq<Recipe>
    var selectedIngredients: seq<string>
    var dietaryPrefs: seq<string>
    var filteredRecipes: seq<Entry>
    var favorites: map<RecipeId, bool>
    var ratings: map<RecipeId, int>
    var difficultyFilter: string
    var maxCookTime: int
    var servingsFilter: Option<int>
    var imageError: string
    /**
     * The selection as the upload handler's closure saw it (line 111 reads
     * the `selectedIngredients` of the render that created the handler,
     * line 57); the merge starts from this copy, not from the selection at
     * the time the response arrives.
     */
    var uploadBase: seq<string>

    /** The selection, the preferences and the upload's copy never hold the same name twice. */
    ghost predicate Valid()
      reads this
    {
      NoDuplicates(selectedIngredients) && NoDuplicates(dietaryPrefs) && NoDuplicates(uploadBase)
    }

    /** The filter settings as the filter reads them. */
    function Settings(): Filters
      reads this
    {
      Filters(selectedIngredients, dietaryPrefs, difficultyFilter, maxCookTime, servingsFilter)
    }

    /** The initial state of the hooks (lines 25-36). */
    constructor(catalog: seq<Recipe>)
      ensures Valid()
      ensures this.catalog == catalog
      ensures selectedIngredients == [] && dietaryPrefs == []
      ensures filteredRecipes == Unscored(catalog)
      ensures favorites == map[] && ratings == map[]
      ensures difficultyFilter == "" && maxCookTime == CookTimeCeiling && servingsFilter == None
      ensures imageError == "" && uploadBase == []
      ensures filteredRecipes == Shown(catalog, Settings())
    {
      this.catalog := catalog;
      selectedIngredients := [];
      dietaryPrefs := [];
      filteredRecipes := Unscored(catalog);
      favorites := map[];
      ratings := map[];
      difficultyFilter := "";
      maxCookTime := 120;
      servingsFilter := None;
      imageError := "";
      uploadBase := [];
    }

    method AddIngredient(ing: string)
      requires Valid()
      modifies this`selectedIngredients
      ensures Valid()
      ensures selectedIngredients == WithIngredient(old(selectedIngredients), ing)
    {
      if Trim(ing) == [] {
        return;
      }
      var ingredient := Trim(Lower(ing));
      if ingredient !in selectedIngredients {
        selectedIngredients := selectedIngredients + [ingredient];
      }
    }

    method RemoveIngredient(ing: string)
      requires Valid()
      modifies this`selectedIngredients
      ensures Valid()
      ensures selectedIngredients == Without(old(selectedIngredients), ing)
    {
      selectedIngredients := Without(selectedIngredients, ing);
    }

    method ToggleDietary(pref: string)
      requires Valid()
      modifies this`dietaryPrefs
      ensures Valid()
      ensures dietaryPrefs == Toggled(old(dietaryPrefs), pref)
    {
      if pref in dietaryPrefs {
        dietaryPrefs := Without(dietaryPrefs, pref);
      } else {
        dietaryPrefs := dietaryPrefs + [pref];
      }
    }

    /**
     * `filterRecipes`: recompute the shown recipes from the current settings.
     * `threw` says whether evaluating the stages raised an exception (lines
     * 211-214), which only a malformed catalog entry can cause; the whole
     * catalog is then shown.
     */
    method FilterRecipes(threw: bool)
      modifies this`filteredRecipes
      ensures !threw ==> filteredRecipes == Shown(catalog, Settings())
      ensures threw ==> filteredRecipes == Unscored(catalog)
    {
      if threw {
        filteredRecipes := Unscored(catalog);
      } else {
        filteredRecipes := Shown(catalog, Settings());
      }
    }

    method ToggleFavorite(id: RecipeId)
      modifies this`favorites
      ensures favorites == FavoriteToggled(old(favorites), id)
    {
      favorites := favorites[id := !(id in favorites && favorites[id])];
    }

    method SetRating(id: RecipeId, stars: int)
      modifies this`ratings
      ensures ratings == Rated(old(ratings), id, stars)
    {
      ratings := ratings[id := stars];
    }

    /**
     * The checks before an image is sent off (lines 61-72); `accepted` says
     * whether it is sent, and an accepted upload keeps the selection of the
     * moment for its merge.
     */
    method CheckImage(mimeType: string, size: int) returns (accepted: bool)
      requires Valid()
      modifies this`imageError, this`uploadBase
      ensures Valid()
      ensures accepted <==> UploadProblem(mimeType, size).None?
      ensures imageError == if accepted then "" else UploadProblem(mimeType, size).value
      ensures uploadBase == if accepted then selectedIngredients else old(uploadBase)
    {
      if !("image/" <= mimeType) {
        imageError := InvalidTypeMessage;
        return false;
      }
      if size > MaxImageBytes {
        imageError := TooLargeMessage;
        return false;
      }
      imageError := "";
      uploadBase := selectedIngredients;
      return true;
    }

    /**
     * The successful-response branch (lines 110-121): merge up to ten
     * detected ingredients into the upload's copy of the selection, which
     * then replaces the selection as a whole.
     */
    method HandleDetected(success: bool, ingredients: seq<string>)
      requires Valid()
      modifies this`selectedIngredients, this`imageError
      ensures Valid()
      ensures success && |ingredients| > 0 ==>
        selectedIngredients == MergeDetected(uploadBase, ingredients) && imageError == ""
      ensures !(success && |ingredients| > 0) ==>
        selectedIngredients == old(selectedIngredients) && imageError == NothingDetectedMessage
    {
      if success && |ingredients| > 0 {
        var current := uploadBase;
        var newIngredients := current;
        var batch := Take(ingredients, DetectionLimit);
        var i := 0;
        while i < |batch|
          invariant 0 <= i <= |batch|
          invariant newIngredients == AppendNew(current, batch[..i])
        {
          assert batch[..i + 1] == batch[..i] + [batch[i]];
          AppendNewSnoc(current, batch[..i], batch[i]);
          if batch[i] !in newIngredients {
            newIngredients := newIngredients + [batch[i]];
          }
          i := i + 1;
        }
        assert batch[..i] == batch;
        selectedIngredients := newIngredients;
        imageError := "";
      } else {
        imageError := NothingDetectedMessage;
      }
    }
  }
}
