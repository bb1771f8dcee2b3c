/**
 * The ingredient matcher: two ingredient names refer to the same thing when,
 * after lower-casing both, either one is a substring of the other
 * (written inline at src/App.jsx:175-178 and 230-233 and at
 * src/utils/recipeFilters.js:17-20 and 58-61).
 */
module Matching {
  import opened Strings

  /** Either lower-cased name occurs, at some position, inside the other. */
  predicate Matches(ingredient: string, selected: string)
    ensures Matches(ingredient, selected) <==>
      (exists i :: OccursAt(Lower(ingredient), Lower(selected), i))
      || (exists i :: OccursAt(Lower(selected), Lower(ingredient), i))
  {
    IncludesIff(Lower(ingredient), Lower(selected));
    IncludesIff(Lower(selected), Lower(ingredient));
    Includes(Lower(ingredient), Lower(selected)) || Includes(Lower(selected), Lower(ingredient))
  }

  /** `selectedIngredients.some(selected => Matches(ingredient, selected))`. */
  predicate AnyMatch(ingredient: string, selection: seq<string>) {
    exists j :: 0 <= j < |selection| && Matches(ingredient, selection[j])
  }

  /** The two filter callbacks built on `AnyMatch`. */
  function Matched(selection: seq<string>): string -> bool {
    ingredient => AnyMatch(ingredient, selection)
  }

  function Unmatched(selection: seq<string>): string -> bool {
    ingredient => !AnyMatch(ingredient, selection)
  }

  /** The rule does not care which side is the recipe's ingredient. */
  lemma MatchesSymmetric(a: string, b: string)
    ensures Matches(a, b) == Matches(b, a)
  {
  }

  /** An empty selected string matches every ingredient, and every ingredient matches itself. */
  lemma EmptyMatchesEverything(ingredient: string)
    ensures Matches(ingredient, "")
    ensures Matches(ingredient, ingredient)
  {
    IncludesEmpty(Lower(ingredient));
    assert Lower(ingredient) <= Lower(ingredient);
  }

  /** Matching is case-insensitive: lower-casing either argument first changes nothing. */
  lemma MatchesIgnoresCase(a: string, b: string)
    ensures Matches(Lower(a), b) == Matches(a, b)
    ensures Matches(a, Lower(b)) == Matches(a, b)
  {
    assert Lower(Lower(a)) == Lower(a);
    assert Lower(Lower(b)) == Lower(b);
  }

  /** Nothing matches against an empty selection. */
  lemma NoMatchInEmptySelection(ingredient: string)
    ensures !AnyMatch(ingredient, [])
  {
  }
}
