/**
 * The ingredient substitution table (src/data/substitutions.js): twelve
 * ingredients, each with three alternatives, listed in the order in which the
 * object literal enumerates its keys.
 */
module Substitutions {
  import opened Strings

  const Table: seq<(string, seq<string>)> := [
    ("butter", ["olive oil", "coconut oil", "margarine"]),
    ("milk", ["almond milk", "soy milk", "coconut milk"]),
    ("egg", ["flax egg", "chia egg", "applesauce"]),
    ("flour", ["almond flour", "coconut flour", "gluten-free flour"]),
    ("soy sauce", ["tamari", "coconut aminos", "worcestershire sauce"]),
    ("chicken", ["tofu", "tempeh", "seitan"]),
    ("beef", ["ground turkey", "lentils", "mushrooms"]),
    ("cheese", ["nutritional yeast", "vegan cheese", "cashew cream"]),
    ("cream", ["coconut cream", "cashew cream", "greek yogurt"]),
    ("pasta", ["zucchini noodles", "rice noodles", "gluten-free pasta"]),
    ("rice", ["cauliflower rice", "quinoa", "couscous"]),
    ("bread", ["lettuce wraps", "gluten-free bread", "tortillas"])
  ]

  /** Twelve rows; every key is lower-case and has exactly three substitutes. */
  lemma TableShape()
    ensures |Table| == 12
    ensures forall i :: 0 <= i < |Table| ==> IsLowerCase(Table[i].0) && |Table[i].1| == 3
  {
  }

  /** An object literal has no repeated keys. */
  lemma KeysDistinct()
    ensures forall i, j :: 0 <= i < j < |Table| ==> Table[i].0 != Table[j].0
  {
  }

  /** "cheese" precedes "cream" and "butter" precedes "milk": the order that decides overlapping names. */
  lemma KeyOrder()
    ensures Table[0].0 == "butter" && Table[1].0 == "milk"
    ensures Table[7].0 == "cheese" && Table[8].0 == "cream"
  {
  }
}
