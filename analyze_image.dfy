/**
 * The label reconciler of the image-analysis endpoint: it turns the labels an
 * image-recognition service returned into canonical ingredient names through a
 * fixed keyword table (api/analyze-image.js:101-169).
 *
 * A label counts only when its confidence is strictly above 70. Its lower-cased
 * name is compared with the keywords in table order, and the first keyword it
 * contains decides the ingredient. The output keeps the first occurrence of
 * each canonical name, in label order.
 */
module LabelReconciler {
  import opened Wrappers
  import opened Strings
  import opened Seqs

  /** One label of the recognition response: its `Name` and its `Confidence` (a percentage). */
  datatype Label = Label(name: string, confidence: real)

  /** A label has to be more confident than this to count. */
  const ConfidenceThreshold: real := 70.0

  /**
   * The keyword table, in the enumeration order of the object literal
   * (keyword, canonical ingredient). It is written as two halves only so that
   * the verifier can index into it cheaply.
   */
  const IngredientMap: seq<(string, string)> := IngredientMapHead + IngredientMapTail

  const IngredientMapHead: seq<(string, string)> := [
    ("tomato", "tomato"),
    ("onion", "onion"),
    ("garlic", "garlic"),
    ("potato", "potato"),
    ("carrot", "carrot"),
    ("broccoli", "broccoli"),
    ("lettuce", "lettuce"),
    ("spinach", "spinach"),
    ("chicken", "chicken"),
    ("beef", "beef"),
    ("pork", "pork"),
    ("fish", "salmon"),
    ("salmon", "salmon"),
    ("shrimp", "shrimp"),
    ("egg", "egg"),
    ("cheese", "cheese"),
    ("bread", "bread"),
    ("rice", "rice"),
    ("pasta", "pasta"),
    ("mushroom", "mushroom"),
    ("pepper", "bell pepper"),
    ("cucumber", "cucumber"),
    ("avocado", "avocado"),
    ("lemon", "lemon")
  ]

  const IngredientMapTail: seq<(string, string)> := [
    ("corn", "corn"),
    ("bean", "black beans"),
    ("pea", "peas"),
    ("basil", "basil"),
    ("ginger", "ginger"),
    ("butter", "butter"),
    ("cabbage", "cabbage"),
    ("celery", "celery"),
    ("eggplant", "eggplant"),
    ("zucchini", "zucchini"),
    ("squash", "squash"),
    ("cauliflower", "cauliflower"),
    ("kale", "kale"),
    ("apple", "apple"),
    ("banana", "banana"),
    ("orange", "orange"),
    ("strawberry", "strawberry"),
    ("blueberry", "blueberry"),
    ("grape", "grapes"),
    ("watermelon", "watermelon"),
    ("pineapple", "pineapple"),
    ("mango", "mango"),
    ("peach", "peach"),
    ("pear", "pear")
  ]

  /** The keyword test of the inner loop, for one lower-cased label name. */
  function KeyIn(labelName: string): string -> bool {
    key => Includes(labelName, key)
  }

  /** The label is confident enough to count. */
  predicate Confident(l: Label) {
    l.confidence > ConfidenceThreshold
  }

  /**
   * The canonical ingredient one label yields: the value of the first keyword
   * its lower-cased name contains, provided the label is confident enough.
   */
  function Contribution(vocabulary: seq<(string, string)>, l: Label): (r: Option<string>)
    ensures !Confident(l) ==> r.None?
    ensures Confident(l) ==>
      (r.None? <==> forall k :: 0 <= k < |vocabulary| ==> !Includes(Lower(l.name), vocabulary[k].0))
    ensures r.Some? ==> exists k :: FirstHitAt(vocabulary, KeyIn(Lower(l.name)), k) && r.value == vocabulary[k].1
  {
    if Confident(l) then FirstHit(vocabulary, KeyIn(Lower(l.name))) else None
  }

  /**
   * The list the loop builds, label by label: each contribution is appended
   * unless it is already there.
   */
  function Reconcile(vocabulary: seq<(string, string)>, labels: seq<Label>): (r: seq<string>)
    ensures NoDuplicates(r)
    ensures |r| <= |labels|
    decreases |labels|
  {
    if labels == [] then []
    else
      var earlier := Reconcile(vocabulary, labels[..|labels| - 1]);
      match Contribution(vocabulary, labels[|labels| - 1])
      case Some(v) => AppendIfAbsent(earlier, v)
      case None => earlier
  }

  /** The loops of the endpoint: every label, then the keywords in order up to the first hit. */
  method DetectIngredients(vocabulary: seq<(string, string)>, labels: seq<Label>) returns (detected: seq<string>)
    ensures detected == Reconcile(vocabulary, labels)
  {
    detected := [];
    var n := 0;
    while n < |labels|
      invariant 0 <= n <= |labels|
      invariant detected == Reconcile(vocabulary, labels[..n])
    {
      assert labels[..n + 1][..n] == labels[..n];
      var l := labels[n];
      var labelName := Lower(l.name);
      var confidence := l.confidence;
      var k := 0;
      while k < |vocabulary|
        invariant 0 <= k <= |vocabulary|
        invariant forall j :: 0 <= j < k ==> !(Includes(labelName, vocabulary[j].0) && confidence > ConfidenceThreshold)
        invariant detected == Reconcile(vocabulary, labels[..n])
      {
        var (key, value) := vocabulary[k];
        if Includes(labelName, key) && confidence > ConfidenceThreshold {
          FirstHitIs(vocabulary, KeyIn(labelName), k);
          if value !in detected {
            detected := detected + [value];
          }
          break;
        }
        k := k + 1;
      }
      n := n + 1;
    }
    assert labels[..n] == labels;
  }

  /** Some label of the list yields `v`. */
  ghost predicate Contributes(vocabulary: seq<(string, string)>, labels: seq<Label>, v: string) {
    exists i :: 0 <= i < |labels| && Contribution(vocabulary, labels[i]) == Some(v)
  }

  /** An ingredient is in the output exactly when some label contributes it. */
  lemma {:induction false} ReconcileMembers(vocabulary: seq<(string, string)>, labels: seq<Label>, v: string)
    ensures v in Reconcile(vocabulary, labels) <==> Contributes(vocabulary, labels, v)
    decreases |labels|
  {
    if labels != [] {
      var init := labels[..|labels| - 1];
      var last := labels[|labels| - 1];
      assert labels == init + [last];
      ReconcileMembers(vocabulary, init, v);
      ReconcileSnoc(vocabulary, init, last);
      ContributesSnoc(vocabulary, init, last, v);
    }
  }

  lemma ContributesSnoc(vocabulary: seq<(string, string)>, init: seq<Label>, last: Label, v: string)
    ensures Contributes(vocabulary, init + [last], v) <==>
      Contributes(vocabulary, init, v) || Contribution(vocabulary, last) == Some(v)
  {
    var labels := init + [last];
    if Contributes(vocabulary, init, v) {
      var i :| 0 <= i < |init| && Contribution(vocabulary, init[i]) == Some(v);
      assert labels[i] == init[i];
    }
    if Contribution(vocabulary, last) == Some(v) {
      assert labels[|init|] == last;
    }
    if Contributes(vocabulary, labels, v) {
      var i :| 0 <= i < |labels| && Contribution(vocabulary, labels[i]) == Some(v);
      if i < |init| {
        assert init[i] == labels[i];
      }
    }
  }

  /** Every ingredient the endpoint reports is one of the table's canonical names. */
  lemma ReconcileFromTable(vocabulary: seq<(string, string)>, labels: seq<Label>)
    ensures forall v :: v in Reconcile(vocabulary, labels) ==> exists k :: 0 <= k < |vocabulary| && vocabulary[k].1 == v
  {
    forall v | v in Reconcile(vocabulary, labels)
      ensures exists k :: 0 <= k < |vocabulary| && vocabulary[k].1 == v
    {
      ReconcileMembers(vocabulary, labels, v);
      var i :| 0 <= i < |labels| && Contribution(vocabulary, labels[i]) == Some(v);
      var k :| FirstHitAt(vocabulary, KeyIn(Lower(labels[i].name)), k) && v == vocabulary[k].1;
    }
  }

  /** One more label extends the list by its contribution, unless that is already listed. */
  lemma ReconcileSnoc(vocabulary: seq<(string, string)>, init: seq<Label>, last: Label)
    ensures Contribution(vocabulary, last).None? ==>
      Reconcile(vocabulary, init + [last]) == Reconcile(vocabulary, init)
    ensures Contribution(vocabulary, last).Some? ==>
      Reconcile(vocabulary, init + [last]) == AppendIfAbsent(Reconcile(vocabulary, init), Contribution(vocabulary, last).value)
  {
    var labels := init + [last];
    assert labels[..|labels| - 1] == init && labels[|labels| - 1] == last;
  }

  /** Dropping the labels that are not confident enough changes nothing. */
  lemma {:induction false} ReconcileIgnoresUnconfident(vocabulary: seq<(string, string)>, labels: seq<Label>)
    ensures Reconcile(vocabulary, labels) == Reconcile(vocabulary, Filter(labels, Confident))
    decreases |labels|
  {
    if labels != [] {
      var init := labels[..|labels| - 1];
      var last := labels[|labels| - 1];
      assert labels == init + [last];
      ReconcileIgnoresUnconfident(vocabulary, init);
      ReconcileSnoc(vocabulary, init, last);
      FilterConcat(init, [last], Confident);
      var kept := Filter(init, Confident);
      if Confident(last) {
        assert Filter([last], Confident) == [last];
        ReconcileSnoc(vocabulary, kept, last);
      } else {
        assert Filter([last], Confident) == [];
        assert kept + [] == kept;
      }
    }
  }

  /** `v` is contributed by a label that precedes every label contributing `w`. */
  ghost predicate ContributedBefore(vocabulary: seq<(string, string)>, labels: seq<Label>, v: string, w: string) {
    exists i :: 0 <= i < |labels| && Contribution(vocabulary, labels[i]) == Some(v) &&
      forall j :: 0 <= j <= i ==> Contribution(vocabulary, labels[j]) != Some(w)
  }

  lemma ContributedBeforeExtends(vocabulary: seq<(string, string)>, labels: seq<Label>, last: Label, v: string, w: string)
    requires ContributedBefore(vocabulary, labels, v, w)
    ensures ContributedBefore(vocabulary, labels + [last], v, w)
  {
    var i :| 0 <= i < |labels| && Contribution(vocabulary, labels[i]) == Some(v) &&
      forall j :: 0 <= j <= i ==> Contribution(vocabulary, labels[j]) != Some(w);
    var ext := labels + [last];
    assert forall j :: 0 <= j <= i ==> ext[j] == labels[j];
    assert Contribution(vocabulary, ext[i]) == Some(v);
  }

  /** An ingredient listed before the new label outranks one the list did not hold yet. */
  lemma ContributedBeforeNew(vocabulary: seq<(string, string)>, init: seq<Label>, last: Label, v: string, w: string)
    requires v in Reconcile(vocabulary, init) && w !in Reconcile(vocabulary, init)
    ensures ContributedBefore(vocabulary, init + [last], v, w)
  {
    ReconcileMembers(vocabulary, init, v);
    ReconcileMembers(vocabulary, init, w);
    var labels := init + [last];
    var i :| 0 <= i < |init| && Contribution(vocabulary, init[i]) == Some(v);
    assert forall j :: 0 <= j <= i ==> labels[j] == init[j];
    assert Contribution(vocabulary, labels[i]) == Some(v);
  }

  /** The output lists the ingredients in the order in which the labels first contribute them. */
  lemma {:induction false} ReconcileOrder(vocabulary: seq<(string, string)>, labels: seq<Label>)
    ensures forall a, b :: 0 <= a < b < |Reconcile(vocabulary, labels)| ==>
      ContributedBefore(vocabulary, labels, Reconcile(vocabulary, labels)[a], Reconcile(vocabulary, labels)[b])
    decreases |labels|
  {
    if labels != [] {
      var init := labels[..|labels| - 1];
      var last := labels[|labels| - 1];
      assert labels == init + [last];
      ReconcileOrder(vocabulary, init);
      ReconcileSnoc(vocabulary, init, last);
      var earlier := Reconcile(vocabulary, init);
      var r := Reconcile(vocabulary, labels);
      forall a, b | 0 <= a < b < |r|
        ensures ContributedBefore(vocabulary, labels, r[a], r[b])
      {
        assert r[a] == earlier[a];
        if b < |earlier| {
          assert r[b] == earlier[b];
          ContributedBeforeExtends(vocabulary, init, last, earlier[a], earlier[b]);
        } else {
          // r[b] is the new ingredient of `last`, which the list did not hold yet
          assert r == earlier + [r[b]] && r[b] !in earlier;
          ContributedBeforeNew(vocabulary, init, last, r[a], r[b]);
        }
      }
    }
  }

  /** A label at exactly the threshold contributes nothing, whatever its name. */
  lemma AtThresholdIgnored(name: string)
    ensures Contribution(IngredientMap, Label(name, 70.0)).None?
  {
  }

  /** A single label yields its contribution, if any. */
  lemma ReconcileOne(vocabulary: seq<(string, string)>, l: Label)
    ensures Contribution(vocabulary, l).None? ==> Reconcile(vocabulary, [l]) == []
    ensures Contribution(vocabulary, l).Some? ==> Reconcile(vocabulary, [l]) == [Contribution(vocabulary, l).value]
  {
    ReconcileSnoc(vocabulary, [], l);
    assert [] + [l] == [l];
  }

  /** Two labels yield their contributions in order, a repeated one once. */
  lemma ReconcileTwo(vocabulary: seq<(string, string)>, a: Label, b: Label)
    ensures Reconcile(vocabulary, [a, b]) ==
      match (Contribution(vocabulary, a), Contribution(vocabulary, b))
      case (None, None) => []
      case (Some(v), None) => [v]
      case (None, Some(w)) => [w]
      case (Some(v), Some(w)) => if v == w then [v] else [v, w]
  {
    ReconcileOne(vocabulary, a);
    ReconcileSnoc(vocabulary, [a], b);
    assert [a] + [b] == [a, b];
  }

  /** "Eggplant" yields `egg`: the keyword `egg` comes before `eggplant` in the table. */
  lemma EggplantIsEgg(l: Label)
    requires l == Label("Eggplant", 90.0)
    ensures Reconcile(IngredientMap, [l]) == ["egg"]
  {
    assert Lower(l.name) == "eggplant";
    EggplantScan(Lower(l.name));
    ReconcileOne(IngredientMap, l);
  }

  /** "Pineapple" yields `apple`: the keyword `apple` comes before `pineapple`. */
  lemma PineappleIsApple(l: Label)
    requires l == Label("Pineapple", 90.0)
    ensures Reconcile(IngredientMap, [l]) == ["apple"]
  {
    assert Lower(l.name) == "pineapple";
    PineappleScan(Lower(l.name));
    ReconcileOne(IngredientMap, l);
  }

  /** "Pear" yields `peas`: the keyword `pea` comes before `pear`. */
  lemma PearIsPeas(l: Label)
    requires l == Label("Pear", 90.0)
    ensures Reconcile(IngredientMap, [l]) == ["peas"]
  {
    assert Lower(l.name) == "pear";
    PearScan(Lower(l.name));
    ReconcileOne(IngredientMap, l);
  }

  /** A confident "Fish" label yields `salmon`, the value of keyword `fish`. */
  lemma FishYieldsSalmon(fish: Label)
    requires fish == Label("Fish", 95.0)
    ensures Contribution(IngredientMap, fish) == Some("salmon")
  {
    assert Lower(fish.name) == "fish";
    FishScan(Lower(fish.name));
  }

  /** A confident "Salmon" label yields `salmon`. */
  lemma SalmonYieldsSalmon(salmon: Label)
    requires salmon == Label("Salmon", 88.0)
    ensures Contribution(IngredientMap, salmon) == Some("salmon")
  {
    assert Lower(salmon.name) == "salmon";
    SalmonScan(Lower(salmon.name));
  }

  /** "Fish" and "Salmon" both map to `salmon`, which is reported once. */
  lemma FishAndSalmonOnce(fish: Label, salmon: Label)
    requires fish == Label("Fish", 95.0) && salmon == Label("Salmon", 88.0)
    ensures Reconcile(IngredientMap, [fish, salmon]) == ["salmon"]
  {
    FishYieldsSalmon(fish);
    SalmonYieldsSalmon(salmon);
    ReconcileTwo(IngredientMap, fish, salmon);
  }

  /** A confident "Fresh Tomato" yields `tomato`; a "Tomato Sauce" at 60 is dropped. */
  lemma TomatoScenario(tomato: Label, sauce: Label)
    requires tomato == Label("Fresh Tomato", 85.0) && sauce == Label("Tomato Sauce", 60.0)
    ensures Reconcile(IngredientMap, [tomato, sauce]) == ["tomato"]
  {
    assert Lower(tomato.name) == "fresh tomato";
    TomatoScan(Lower(tomato.name));
    ReconcileTwo(IngredientMap, tomato, sauce);
  }

  // The concrete scans. Each `...Miss{j}` lemma shows that keyword j is not
  // contained in one label name: the keyword is longer, or it has a character
  // or a pair of adjacent characters the name lacks. Each `...Scan` lemma puts
  // these together with the first keyword that is contained.
  // There is one lemma per keyword on purpose: facts about several literal
  // strings in a single proof make the solver's work grow much faster than
  // their number, and a scan proved in one piece does not fit the resource
  // limit, so each miss is proved on its own and the scan only combines
  // the results.

  /** The scan for "eggplant" stops at keyword "egg", entry 14 of the table. */
  lemma EggplantScan(name: string)
    requires name == "eggplant"
    ensures FirstHit(IngredientMap, KeyIn(name)) == Some("egg")
  {
    forall j | 0 <= j < 14 ensures !Includes(name, IngredientMap[j].0) {
      if j == 0 {
        EggplantMiss0(name);
      } else if j == 1 {
        EggplantMiss1(name);
      } else if j == 2 {
        EggplantMiss2(name);
      } else if j == 3 {
        EggplantMiss3(name);
      } else if j == 4 {
        EggplantMiss4(name);
      } else if j == 5 {
        EggplantMiss5(name);
      } else if j == 6 {
        EggplantMiss6(name);
      } else if j == 7 {
        EggplantMiss7(name);
      } else if j == 8 {
        EggplantMiss8(name);
      } else if j == 9 {
        EggplantMiss9(name);
      } else if j == 10 {
        EggplantMiss10(name);
      } else if j == 11 {
        EggplantMiss11(name);
      } else if j == 12 {
        EggplantMiss12(name);
      } else {
        EggplantMiss13(name);
      }
    }
    assert IngredientMap[14] == ("egg", "egg");
    OccursIncluded(name, "egg", 0);
    FirstHitIs(IngredientMap, KeyIn(name), 14);
  }

  lemma EggplantMiss0(name: string)
    requires name == "eggplant"
    ensures !Includes(name, IngredientMap[0].0)
  {
    assert IngredientMap[0].0 == "tomato";
    AbsentCharNotIncluded(name, "tomato", 1);
  }

  lemma EggplantMiss1(name: string)
    requires name == "eggplant"
    ensures !Includes(name, IngredientMap[1].0)
  {
    assert IngredientMap[1].0 == "onion";
    AbsentCharNotIncluded(name, "onion", 0);
  }

  lemma EggplantMiss2(name: string)
    requires name == "eggplant"
    ensures !Includes(name, IngredientMap[2].0)
  {
    assert IngredientMap[2].0 == "garlic";
    AbsentCharNotIncluded(name, "garlic", 2);
  }

  lemma EggplantMiss3(name: string)
    requires name == "eggplant"
    ensures !Includes(name, IngredientMap[3].0)
  {
    assert IngredientMap[3].0 == "potato";
    AbsentCharNotIncluded(name, "potato", 1);
  }

  lemma EggplantMiss4(name: string)
    requires name == "eggplant"
    ensures !Includes(name, IngredientMap[4].0)
  {
    assert IngredientMap[4].0 == "carrot";
    AbsentCharNotIncluded(name, "carrot", 0);
  }

  lemma EggplantMiss5(name: string)
    requires name == "eggplant"
    ensures !Includes(name, IngredientMap[5].0)
  {
    assert IngredientMap[5].0 == "broccoli";
    AbsentCharNotIncluded(name, "broccoli", 0);
  }

  lemma EggplantMiss6(name: string)
    requires name == "eggplant"
    ensures !Includes(name, IngredientMap[6].0)
  {
    assert IngredientMap[6].0 == "lettuce";
    AbsentCharNotIncluded(name, "lettuce", 4);
  }

  lemma EggplantMiss7(name: string)
    requires name == "eggplant"
    ensures !Includes(name, IngredientMap[7].0)
  {
    assert IngredientMap[7].0 == "spinach";
    AbsentCharNotIncluded(name, "spinach", 0);
  }

  lemma EggplantMiss8(name: string)
    requires name == "eggplant"
    ensures !Includes(name, IngredientMap[8].0)
  {
    assert IngredientMap[8].0 == "chicken";
    AbsentCharNotIncluded(name, "chicken", 0);
  }

  lemma EggplantMiss9(name: string)
    requires name == "eggplant"
    ensures !Includes(name, IngredientMap[9].0)
  {
    assert IngredientMap[9].0 == "beef";
    AbsentCharNotIncluded(name, "beef", 0);
  }

  lemma EggplantMiss10(name: string)
    requires name == "eggplant"
    ensures !Includes(name, IngredientMap[10].0)
  {
    assert IngredientMap[10].0 == "pork";
    AbsentCharNotIncluded(name, "pork", 1);
  }

  lemma EggplantMiss11(name: string)
    requires name == "eggplant"
    ensures !Includes(name, IngredientMap[11].0)
  {
    assert IngredientMap[11].0 == "fish";
    AbsentCharNotIncluded(name, "fish", 0);
  }

  lemma EggplantMiss12(name: string)
    requires name == "eggplant"
    ensures !Includes(name, IngredientMap[12].0)
  {
    assert IngredientMap[12].0 == "salmon";
    AbsentCharNotIncluded(name, "salmon", 0);
  }

  lemma EggplantMiss13(name: string)
    requires name == "eggplant"
    ensures !Includes(name, IngredientMap[13].0)
  {
    assert IngredientMap[13].0 == "shrimp";
    AbsentCharNotIncluded(name, "shrimp", 0);
  }
  /** The scan for "pineapple" stops at keyword "apple", entry 37 of the table. */
  lemma PineappleScan(name: string)
    requires name == "pineapple"
    ensures FirstHit(IngredientMap, KeyIn(name)) == Some("apple")
  {
    forall j | 0 <= j < 37 ensures !Includes(name, IngredientMap[j].0) {
      if j == 0 {
        PineappleMiss0(name);
      } else if j == 1 {
        PineappleMiss1(name);
      } else if j == 2 {
        PineappleMiss2(name);
      } else if j == 3 {
        PineappleMiss3(name);
      } else if j == 4 {
        PineappleMiss4(name);
      } else if j == 5 {
        PineappleMiss5(name);
      } else if j == 6 {
        PineappleMiss6(name);
      } else if j == 7 {
        PineappleMiss7(name);
      } else if j == 8 {
        PineappleMiss8(name);
      } else if j == 9 {
        PineappleMiss9(name);
      } else if j == 10 {
        PineappleMiss10(name);
      } else if j == 11 {
        PineappleMiss11(name);
      } else if j == 12 {
        PineappleMiss12(name);
      } else if j == 13 {
        PineappleMiss13(name);
      } else if j == 14 {
        PineappleMiss14(name);
      } else if j == 15 {
        PineappleMiss15(name);
      } else if j == 16 {
        PineappleMiss16(name);
      } else if j == 17 {
        PineappleMiss17(name);
      } else if j == 18 {
        PineappleMiss18(name);
      } else if j == 19 {
        PineappleMiss19(name);
      } else if j == 20 {
        PineappleMiss20(name);
      } else if j == 21 {
        PineappleMiss21(name);
      } else if j == 22 {
        PineappleMiss22(name);
      } else if j == 23 {
        PineappleMiss23(name);
      } else if j == 24 {
        PineappleMiss24(name);
      } else if j == 25 {
        PineappleMiss25(name);
      } else if j == 26 {
        PineappleMiss26(name);
      } else if j == 27 {
        PineappleMiss27(name);
      } else if j == 28 {
        PineappleMiss28(name);
      } else if j == 29 {
        PineappleMiss29(name);
      } else if j == 30 {
        PineappleMiss30(name);
      } else if j == 31 {
        PineappleMiss31(name);
      } else if j == 32 {
        PineappleMiss32(name);
      } else if j == 33 {
        PineappleMiss33(name);
      } else if j == 34 {
        PineappleMiss34(name);
      } else if j == 35 {
        PineappleMiss35(name);
      } else {
        PineappleMiss36(name);
      }
    }
    assert IngredientMap[37] == ("apple", "apple");
    OccursIncluded(name, "apple", 4);
    FirstHitIs(IngredientMap, KeyIn(name), 37);
  }

  lemma PineappleMiss0(name: string)
    requires name == "pineapple"
    ensures !Includes(name, IngredientMap[0].0)
  {
    assert IngredientMap[0].0 == "tomato";
    AbsentCharNotIncluded(name, "tomato", 0);
  }

  lemma PineappleMiss1(name: string)
    requires name == "pineapple"
    ensures !Includes(name, IngredientMap[1].0)
  {
    assert IngredientMap[1].0 == "onion";
    AbsentCharNotIncluded(name, "onion", 0);
  }

  lemma PineappleMiss2(name: string)
    requires name == "pineapple"
    ensures !Includes(name, IngredientMap[2].0)
  {
    assert IngredientMap[2].0 == "garlic";
    AbsentCharNotIncluded(name, "garlic", 0);
  }

  lemma PineappleMiss3(name: string)
    requires name == "pineapple"
    ensures !Includes(name, IngredientMap[3].0)
  {
    assert IngredientMap[3].0 == "potato";
    AbsentCharNotIncluded(name, "potato", 1);
  }

  lemma PineappleMiss4(name: string)
    requires name == "pineapple"
    ensures !Includes(name, IngredientMap[4].0)
  {
    assert IngredientMap[4].0 == "carrot";
    AbsentCharNotIncluded(name, "carrot", 0);
  }

  lemma PineappleMiss5(name: string)
    requires name == "pineapple"
    ensures !Includes(name, IngredientMap[5].0)
  {
    assert IngredientMap[5].0 == "broccoli";
    AbsentCharNotIncluded(name, "broccoli", 0);
  }

  lemma PineappleMiss6(name: string)
    requires name == "pineapple"
    ensures !Includes(name, IngredientMap[6].0)
  {
    assert IngredientMap[6].0 == "lettuce";
    AbsentCharNotIncluded(name, "lettuce", 2);
  }

  lemma PineappleMiss7(name: string)
    requires name == "pineapple"
    ensures !Includes(name, IngredientMap[7].0)
  {
    assert IngredientMap[7].0 == "spinach";
    AbsentCharNotIncluded(name, "spinach", 0);
  }

  lemma PineappleMiss8(name: string)
    requires name == "pineapple"
    ensures !Includes(name, IngredientMap[8].0)
  {
    assert IngredientMap[8].0 == "chicken";
    AbsentCharNotIncluded(name, "chicken", 0);
  }

  lemma PineappleMiss9(name: string)
    requires name == "pineapple"
    ensures !Includes(name, IngredientMap[9].0)
  {
    assert IngredientMap[9].0 == "beef";
    AbsentCharNotIncluded(name, "beef", 0);
  }

  lemma PineappleMiss10(name: string)
    requires name == "pineapple"
    ensures !Includes(name, IngredientMap[10].0)
  {
    assert IngredientMap[10].0 == "pork";
    AbsentCharNotIncluded(name, "pork", 1);
  }

  lemma PineappleMiss11(name: string)
    requires name == "pineapple"
    ensures !Includes(name, IngredientMap[11].0)
  {
    assert IngredientMap[11].0 == "fish";
    AbsentCharNotIncluded(name, "fish", 0);
  }

  lemma PineappleMiss12(name: string)
    requires name == "pineapple"
    ensures !Includes(name, IngredientMap[12].0)
  {
    assert IngredientMap[12].0 == "salmon";
    AbsentCharNotIncluded(name, "salmon", 0);
  }

  lemma PineappleMiss13(name: string)
    requires name == "pineapple"
    ensures !Includes(name, IngredientMap[13].0)
  {
    assert IngredientMap[13].0 == "shrimp";
    AbsentCharNotIncluded(name, "shrimp", 0);
  }

  lemma PineappleMiss14(name: string)
    requires name == "pineapple"
    ensures !Includes(name, IngredientMap[14].0)
  {
    assert IngredientMap[14].0 == "egg";
    AbsentCharNotIncluded(name, "egg", 1);
  }

  lemma PineappleMiss15(name: string)
    requires name == "pineapple"
    ensures !Includes(name, IngredientMap[15].0)
  {
    assert IngredientMap[15].0 == "cheese";
    AbsentCharNotIncluded(name, "cheese", 0);
  }

  lemma PineappleMiss16(name: string)
    requires name == "pineapple"
    ensures !Includes(name, IngredientMap[16].0)
  {
    assert IngredientMap[16].0 == "bread";
    AbsentCharNotIncluded(name, "bread", 0);
  }

  lemma PineappleMiss17(name: string)
    requires name == "pineapple"
    ensures !Includes(name, IngredientMap[17].0)
  {
    assert IngredientMap[17].0 == "rice";
    AbsentCharNotIncluded(name, "rice", 0);
  }

  lemma PineappleMiss18(name: string)
    requires name == "pineapple"
    ensures !Includes(name, IngredientMap[18].0)
  {
    assert IngredientMap[18].0 == "pasta";
    AbsentCharNotIncluded(name, "pasta", 2);
  }

  lemma PineappleMiss19(name: string)
    requires name == "pineapple"
    ensures !Includes(name, IngredientMap[19].0)
  {
    assert IngredientMap[19].0 == "mushroom";
    AbsentCharNotIncluded(name, "mushroom", 0);
  }

  lemma PineappleMiss20(name: string)
    requires name == "pineapple"
    ensures !Includes(name, IngredientMap[20].0)
  {
    assert IngredientMap[20].0 == "pepper";
    AbsentCharNotIncluded(name, "pepper", 5);
  }

  lemma PineappleMiss21(name: string)
    requires name == "pineapple"
    ensures !Includes(name, IngredientMap[21].0)
  {
    assert IngredientMap[21].0 == "cucumber";
    AbsentCharNotIncluded(name, "cucumber", 0);
  }

  lemma PineappleMiss22(name: string)
    requires name == "pineapple"
    ensures !Includes(name, IngredientMap[22].0)
  {
    assert IngredientMap[22].0 == "avocado";
    AbsentCharNotIncluded(name, "avocado", 1);
  }

  lemma PineappleMiss23(name: string)
    requires name == "pineapple"
    ensures !Includes(name, IngredientMap[23].0)
  {
    assert IngredientMap[23].0 == "lemon";
    AbsentCharNotIncluded(name, "lemon", 2);
  }

  lemma PineappleMiss24(name: string)
    requires name == "pineapple"
    ensures !Includes(name, IngredientMap[24].0)
  {
    assert IngredientMap[24].0 == "corn";
    AbsentCharNotIncluded(name, "corn", 0);
  }

  lemma PineappleMiss25(name: string)
    requires name == "pineapple"
    ensures !Includes(name, IngredientMap[25].0)
  {
    assert IngredientMap[25].0 == "bean";
    AbsentCharNotIncluded(name, "bean", 0);
  }

  lemma PineappleMiss26(name: string)
    requires name == "pineapple"
    ensures !Includes(name, IngredientMap[26].0)
  {
    assert IngredientMap[26].0 == "pea";
    AbsentPairNotIncluded(name, "pea", 0);
  }

  lemma PineappleMiss27(name: string)
    requires name == "pineapple"
    ensures !Includes(name, IngredientMap[27].0)
  {
    assert IngredientMap[27].0 == "basil";
    AbsentCharNotIncluded(name, "basil", 0);
  }

  lemma PineappleMiss28(name: string)
    requires name == "pineapple"
    ensures !Includes(name, IngredientMap[28].0)
  {
    assert IngredientMap[28].0 == "ginger";
    AbsentCharNotIncluded(name, "ginger", 0);
  }

  lemma PineappleMiss29(name: string)
    requires name == "pineapple"
    ensures !Includes(name, IngredientMap[29].0)
  {
    assert IngredientMap[29].0 == "butter";
    AbsentCharNotIncluded(name, "butter", 0);
  }

  lemma PineappleMiss30(name: string)
    requires name == "pineapple"
    ensures !Includes(name, IngredientMap[30].0)
  {
    assert IngredientMap[30].0 == "cabbage";
    AbsentCharNotIncluded(name, "cabbage", 0);
  }

  lemma PineappleMiss31(name: string)
    requires name == "pineapple"
    ensures !Includes(name, IngredientMap[31].0)
  {
    assert IngredientMap[31].0 == "celery";
    AbsentCharNotIncluded(name, "celery", 0);
  }

  lemma PineappleMiss32(name: string)
    requires name == "pineapple"
    ensures !Includes(name, IngredientMap[32].0)
  {
    assert IngredientMap[32].0 == "eggplant";
    AbsentCharNotIncluded(name, "eggplant", 1);
  }

  lemma PineappleMiss33(name: string)
    requires name == "pineapple"
    ensures !Includes(name, IngredientMap[33].0)
  {
    assert IngredientMap[33].0 == "zucchini";
    AbsentCharNotIncluded(name, "zucchini", 0);
  }

  lemma PineappleMiss34(name: string)
    requires name == "pineapple"
    ensures !Includes(name, IngredientMap[34].0)
  {
    assert IngredientMap[34].0 == "squash";
    AbsentCharNotIncluded(name, "squash", 0);
  }

  lemma PineappleMiss35(name: string)
    requires name == "pineapple"
    ensures !Includes(name, IngredientMap[35].0)
  {
    assert IngredientMap[35].0 == "cauliflower";
    LongerNotIncluded(name, "cauliflower");
  }

  lemma PineappleMiss36(name: string)
    requires name == "pineapple"
    ensures !Includes(name, IngredientMap[36].0)
  {
    assert IngredientMap[36].0 == "kale";
    AbsentCharNotIncluded(name, "kale", 0);
  }
  /** The scan for "pear" stops at keyword "pea", entry 26 of the table. */
  lemma PearScan(name: string)
    requires name == "pear"
    ensures FirstHit(IngredientMap, KeyIn(name)) == Some("peas")
  {
    forall j | 0 <= j < 26 ensures !Includes(name, IngredientMap[j].0) {
      if j == 0 {
        PearMiss0(name);
      } else if j == 1 {
        PearMiss1(name);
      } else if j == 2 {
        PearMiss2(name);
      } else if j == 3 {
        PearMiss3(name);
      } else if j == 4 {
        PearMiss4(name);
      } else if j == 5 {
        PearMiss5(name);
      } else if j == 6 {
        PearMiss6(name);
      } else if j == 7 {
        PearMiss7(name);
      } else if j == 8 {
        PearMiss8(name);
      } else if j == 9 {
        PearMiss9(name);
      } else if j == 10 {
        PearMiss10(name);
      } else if j == 11 {
        PearMiss11(name);
      } else if j == 12 {
        PearMiss12(name);
      } else if j == 13 {
        PearMiss13(name);
      } else if j == 14 {
        PearMiss14(name);
      } else if j == 15 {
        PearMiss15(name);
      } else if j == 16 {
        PearMiss16(name);
      } else if j == 17 {
        PearMiss17(name);
      } else if j == 18 {
        PearMiss18(name);
      } else if j == 19 {
        PearMiss19(name);
      } else if j == 20 {
        PearMiss20(name);
      } else if j == 21 {
        PearMiss21(name);
      } else if j == 22 {
        PearMiss22(name);
      } else if j == 23 {
        PearMiss23(name);
      } else if j == 24 {
        PearMiss24(name);
      } else {
        PearMiss25(name);
      }
    }
    assert IngredientMap[26] == ("pea", "peas");
    OccursIncluded(name, "pea", 0);
    FirstHitIs(IngredientMap, KeyIn(name), 26);
  }

  lemma PearMiss0(name: string)
    requires name == "pear"
    ensures !Includes(name, IngredientMap[0].0)
  {
    assert IngredientMap[0].0 == "tomato";
    LongerNotIncluded(name, "tomato");
  }

  lemma PearMiss1(name: string)
    requires name == "pear"
    ensures !Includes(name, IngredientMap[1].0)
  {
    assert IngredientMap[1].0 == "onion";
    LongerNotIncluded(name, "onion");
  }

  lemma PearMiss2(name: string)
    requires name == "pear"
    ensures !Includes(name, IngredientMap[2].0)
  {
    assert IngredientMap[2].0 == "garlic";
    LongerNotIncluded(name, "garlic");
  }

  lemma PearMiss3(name: string)
    requires name == "pear"
    ensures !Includes(name, IngredientMap[3].0)
  {
    assert IngredientMap[3].0 == "potato";
    LongerNotIncluded(name, "potato");
  }

  lemma PearMiss4(name: string)
    requires name == "pear"
    ensures !Includes(name, IngredientMap[4].0)
  {
    assert IngredientMap[4].0 == "carrot";
    LongerNotIncluded(name, "carrot");
  }

  lemma PearMiss5(name: string)
    requires name == "pear"
    ensures !Includes(name, IngredientMap[5].0)
  {
    assert IngredientMap[5].0 == "broccoli";
    LongerNotIncluded(name, "broccoli");
  }

  lemma PearMiss6(name: string)
    requires name == "pear"
    ensures !Includes(name, IngredientMap[6].0)
  {
    assert IngredientMap[6].0 == "lettuce";
    LongerNotIncluded(name, "lettuce");
  }

  lemma PearMiss7(name: string)
    requires name == "pear"
    ensures !Includes(name, IngredientMap[7].0)
  {
    assert IngredientMap[7].0 == "spinach";
    LongerNotIncluded(name, "spinach");
  }

  lemma PearMiss8(name: string)
    requires name == "pear"
    ensures !Includes(name, IngredientMap[8].0)
  {
    assert IngredientMap[8].0 == "chicken";
    LongerNotIncluded(name, "chicken");
  }

  lemma PearMiss9(name: string)
    requires name == "pear"
    ensures !Includes(name, IngredientMap[9].0)
  {
    assert IngredientMap[9].0 == "beef";
    AbsentCharNotIncluded(name, "beef", 0);
  }

  lemma PearMiss10(name: string)
    requires name == "pear"
    ensures !Includes(name, IngredientMap[10].0)
  {
    assert IngredientMap[10].0 == "pork";
    AbsentCharNotIncluded(name, "pork", 1);
  }

  lemma PearMiss11(name: string)
    requires name == "pear"
    ensures !Includes(name, IngredientMap[11].0)
  {
    assert IngredientMap[11].0 == "fish";
    AbsentCharNotIncluded(name, "fish", 0);
  }

  lemma PearMiss12(name: string)
    requires name == "pear"
    ensures !Includes(name, IngredientMap[12].0)
  {
    assert IngredientMap[12].0 == "salmon";
    LongerNotIncluded(name, "salmon");
  }

  lemma PearMiss13(name: string)
    requires name == "pear"
    ensures !Includes(name, IngredientMap[13].0)
  {
    assert IngredientMap[13].0 == "shrimp";
    LongerNotIncluded(name, "shrimp");
  }

  lemma PearMiss14(name: string)
    requires name == "pear"
    ensures !Includes(name, IngredientMap[14].0)
  {
    assert IngredientMap[14].0 == "egg";
    AbsentCharNotIncluded(name, "egg", 1);
  }

  lemma PearMiss15(name: string)
    requires name == "pear"
    ensures !Includes(name, IngredientMap[15].0)
  {
    assert IngredientMap[15].0 == "cheese";
    LongerNotIncluded(name, "cheese");
  }

  lemma PearMiss16(name: string)
    requires name == "pear"
    ensures !Includes(name, IngredientMap[16].0)
  {
    assert IngredientMap[16].0 == "bread";
    LongerNotIncluded(name, "bread");
  }

  lemma PearMiss17(name: string)
    requires name == "pear"
    ensures !Includes(name, IngredientMap[17].0)
  {
    assert IngredientMap[17].0 == "rice";
    AbsentCharNotIncluded(name, "rice", 1);
  }

  lemma PearMiss18(name: string)
    requires name == "pear"
    ensures !Includes(name, IngredientMap[18].0)
  {
    assert IngredientMap[18].0 == "pasta";
    LongerNotIncluded(name, "pasta");
  }

  lemma PearMiss19(name: string)
    requires name == "pear"
    ensures !Includes(name, IngredientMap[19].0)
  {
    assert IngredientMap[19].0 == "mushroom";
    LongerNotIncluded(name, "mushroom");
  }

  lemma PearMiss20(name: string)
    requires name == "pear"
    ensures !Includes(name, IngredientMap[20].0)
  {
    assert IngredientMap[20].0 == "pepper";
    LongerNotIncluded(name, "pepper");
  }

  lemma PearMiss21(name: string)
    requires name == "pear"
    ensures !Includes(name, IngredientMap[21].0)
  {
    assert IngredientMap[21].0 == "cucumber";
    LongerNotIncluded(name, "cucumber");
  }

  lemma PearMiss22(name: string)
    requires name == "pear"
    ensures !Includes(name, IngredientMap[22].0)
  {
    assert IngredientMap[22].0 == "avocado";
    LongerNotIncluded(name, "avocado");
  }

  lemma PearMiss23(name: string)
    requires name == "pear"
    ensures !Includes(name, IngredientMap[23].0)
  {
    assert IngredientMap[23].0 == "lemon";
    LongerNotIncluded(name, "lemon");
  }

  lemma PearMiss24(name: string)
    requires name == "pear"
    ensures !Includes(name, IngredientMap[24].0)
  {
    assert IngredientMap[24].0 == "corn";
    AbsentCharNotIncluded(name, "corn", 0);
  }

  lemma PearMiss25(name: string)
    requires name == "pear"
    ensures !Includes(name, IngredientMap[25].0)
  {
    assert IngredientMap[25].0 == "bean";
    AbsentCharNotIncluded(name, "bean", 0);
  }
  /** The scan for "fish" stops at keyword "fish", entry 11 of the table. */
  lemma FishScan(name: string)
    requires name == "fish"
    ensures FirstHit(IngredientMap, KeyIn(name)) == Some("salmon")
  {
    forall j | 0 <= j < 11 ensures !Includes(name, IngredientMap[j].0) {
      if j == 0 {
        FishMiss0(name);
      } else if j == 1 {
        FishMiss1(name);
      } else if j == 2 {
        FishMiss2(name);
      } else if j == 3 {
        FishMiss3(name);
      } else if j == 4 {
        FishMiss4(name);
      } else if j == 5 {
        FishMiss5(name);
      } else if j == 6 {
        FishMiss6(name);
      } else if j == 7 {
        FishMiss7(name);
      } else if j == 8 {
        FishMiss8(name);
      } else if j == 9 {
        FishMiss9(name);
      } else {
        FishMiss10(name);
      }
    }
    assert IngredientMap[11] == ("fish", "salmon");
    OccursIncluded(name, "fish", 0);
    FirstHitIs(IngredientMap, KeyIn(name), 11);
  }

  lemma FishMiss0(name: string)
    requires name == "fish"
    ensures !Includes(name, IngredientMap[0].0)
  {
    assert IngredientMap[0].0 == "tomato";
    LongerNotIncluded(name, "tomato");
  }

  lemma FishMiss1(name: string)
    requires name == "fish"
    ensures !Includes(name, IngredientMap[1].0)
  {
    assert IngredientMap[1].0 == "onion";
    LongerNotIncluded(name, "onion");
  }

  lemma FishMiss2(name: string)
    requires name == "fish"
    ensures !Includes(name, IngredientMap[2].0)
  {
    assert IngredientMap[2].0 == "garlic";
    LongerNotIncluded(name, "garlic");
  }

  lemma FishMiss3(name: string)
    requires name == "fish"
    ensures !Includes(name, IngredientMap[3].0)
  {
    assert IngredientMap[3].0 == "potato";
    LongerNotIncluded(name, "potato");
  }

  lemma FishMiss4(name: string)
    requires name == "fish"
    ensures !Includes(name, IngredientMap[4].0)
  {
    assert IngredientMap[4].0 == "carrot";
    LongerNotIncluded(name, "carrot");
  }

  lemma FishMiss5(name: string)
    requires name == "fish"
    ensures !Includes(name, IngredientMap[5].0)
  {
    assert IngredientMap[5].0 == "broccoli";
    LongerNotIncluded(name, "broccoli");
  }

  lemma FishMiss6(name: string)
    requires name == "fish"
    ensures !Includes(name, IngredientMap[6].0)
  {
    assert IngredientMap[6].0 == "lettuce";
    LongerNotIncluded(name, "lettuce");
  }

  lemma FishMiss7(name: string)
    requires name == "fish"
    ensures !Includes(name, IngredientMap[7].0)
  {
    assert IngredientMap[7].0 == "spinach";
    LongerNotIncluded(name, "spinach");
  }

  lemma FishMiss8(name: string)
    requires name == "fish"
    ensures !Includes(name, IngredientMap[8].0)
  {
    assert IngredientMap[8].0 == "chicken";
    LongerNotIncluded(name, "chicken");
  }

  lemma FishMiss9(name: string)
    requires name == "fish"
    ensures !Includes(name, IngredientMap[9].0)
  {
    assert IngredientMap[9].0 == "beef";
    AbsentCharNotIncluded(name, "beef", 0);
  }

  lemma FishMiss10(name: string)
    requires name == "fish"
    ensures !Includes(name, IngredientMap[10].0)
  {
    assert IngredientMap[10].0 == "pork";
    AbsentCharNotIncluded(name, "pork", 0);
  }
  /** The scan for "salmon" stops at keyword "salmon", entry 12 of the table. */
  lemma SalmonScan(name: string)
    requires name == "salmon"
    ensures FirstHit(IngredientMap, KeyIn(name)) == Some("salmon")
  {
    forall j | 0 <= j < 12 ensures !Includes(name, IngredientMap[j].0) {
      if j == 0 {
        SalmonMiss0(name);
      } else if j == 1 {
        SalmonMiss1(name);
      } else if j == 2 {
        SalmonMiss2(name);
      } else if j == 3 {
        SalmonMiss3(name);
      } else if j == 4 {
        SalmonMiss4(name);
      } else if j == 5 {
        SalmonMiss5(name);
      } else if j == 6 {
        SalmonMiss6(name);
      } else if j == 7 {
        SalmonMiss7(name);
      } else if j == 8 {
        SalmonMiss8(name);
      } else if j == 9 {
        SalmonMiss9(name);
      } else if j == 10 {
        SalmonMiss10(name);
      } else {
        SalmonMiss11(name);
      }
    }
    assert IngredientMap[12] == ("salmon", "salmon");
    OccursIncluded(name, "salmon", 0);
    FirstHitIs(IngredientMap, KeyIn(name), 12);
  }

  lemma SalmonMiss0(name: string)
    requires name == "salmon"
    ensures !Includes(name, IngredientMap[0].0)
  {
    assert IngredientMap[0].0 == "tomato";
    AbsentCharNotIncluded(name, "tomato", 0);
  }

  lemma SalmonMiss1(name: string)
    requires name == "salmon"
    ensures !Includes(name, IngredientMap[1].0)
  {
    assert IngredientMap[1].0 == "onion";
    AbsentCharNotIncluded(name, "onion", 2);
  }

  lemma SalmonMiss2(name: string)
    requires name == "salmon"
    ensures !Includes(name, IngredientMap[2].0)
  {
    assert IngredientMap[2].0 == "garlic";
    AbsentCharNotIncluded(name, "garlic", 0);
  }

  lemma SalmonMiss3(name: string)
    requires name == "salmon"
    ensures !Includes(name, IngredientMap[3].0)
  {
    assert IngredientMap[3].0 == "potato";
    AbsentCharNotIncluded(name, "potato", 0);
  }

  lemma SalmonMiss4(name: string)
    requires name == "salmon"
    ensures !Includes(name, IngredientMap[4].0)
  {
    assert IngredientMap[4].0 == "carrot";
    AbsentCharNotIncluded(name, "carrot", 0);
  }

  lemma SalmonMiss5(name: string)
    requires name == "salmon"
    ensures !Includes(name, IngredientMap[5].0)
  {
    assert IngredientMap[5].0 == "broccoli";
    LongerNotIncluded(name, "broccoli");
  }

  lemma SalmonMiss6(name: string)
    requires name == "salmon"
    ensures !Includes(name, IngredientMap[6].0)
  {
    assert IngredientMap[6].0 == "lettuce";
    LongerNotIncluded(name, "lettuce");
  }

  lemma SalmonMiss7(name: string)
    requires name == "salmon"
    ensures !Includes(name, IngredientMap[7].0)
  {
    assert IngredientMap[7].0 == "spinach";
    LongerNotIncluded(name, "spinach");
  }

  lemma SalmonMiss8(name: string)
    requires name == "salmon"
    ensures !Includes(name, IngredientMap[8].0)
  {
    assert IngredientMap[8].0 == "chicken";
    LongerNotIncluded(name, "chicken");
  }

  lemma SalmonMiss9(name: string)
    requires name == "salmon"
    ensures !Includes(name, IngredientMap[9].0)
  {
    assert IngredientMap[9].0 == "beef";
    AbsentCharNotIncluded(name, "beef", 0);
  }

  lemma SalmonMiss10(name: string)
    requires name == "salmon"
    ensures !Includes(name, IngredientMap[10].0)
  {
    assert IngredientMap[10].0 == "pork";
    AbsentCharNotIncluded(name, "pork", 0);
  }

  lemma SalmonMiss11(name: string)
    requires name == "salmon"
    ensures !Includes(name, IngredientMap[11].0)
  {
    assert IngredientMap[11].0 == "fish";
    AbsentCharNotIncluded(name, "fish", 0);
  }
  /** The scan for "fresh tomato" stops at keyword "tomato", entry 0 of the table. */
  lemma TomatoScan(name: string)
    requires name == "fresh tomato"
    ensures FirstHit(IngredientMap, KeyIn(name)) == Some("tomato")
  {
    assert IngredientMap[0] == ("tomato", "tomato");
    OccursIncluded(name, "tomato", 6);
    FirstHitIs(IngredientMap, KeyIn(name), 0);
  }
}
