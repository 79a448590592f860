/** Collection statistics: count, rounded mean cooking time, rounded mean of the
    per-recipe rating means, counts per difficulty and the ten most common ingredients. */
module RecipeStats {
  import opened RecipeModel
  import opened Text
  import opened Sorting

  datatype DifficultyCounts = DifficultyCounts(easy: nat, medium: nat, hard: nat)

  datatype IngredientCount = IngredientCount(ingredient: string, count: nat)

  datatype Stats = Stats(
    totalRecipes: nat,
    averageCookingTime: real,
    averageRating: real,
    recipesByDifficulty: DifficultyCounts,
    mostCommonIngredients: seq<IngredientCount>)

  /** The reduce that adds up cooking times. */
  function SumCookingTime(rs: seq<Recipe>): real
  {
    if rs == [] then 0.0 else SumCookingTime(rs[..|rs| - 1]) + rs[|rs| - 1].cookingTime
  }

  /** The reduce that adds up the per-recipe rating means (0 for a recipe without ratings). */
  function SumMeanRatings(rs: seq<Recipe>): real
  {
    if rs == [] then 0.0 else SumMeanRatings(rs[..|rs| - 1]) + MeanRating(rs[|rs| - 1])
  }

  function MeanCookingTime(rs: seq<Recipe>): real
    requires rs != []
  {
    SumCookingTime(rs) / |rs| as real
  }

  function MeanOfMeanRatings(rs: seq<Recipe>): real
    requires rs != []
  {
    SumMeanRatings(rs) / |rs| as real
  }

  /** One step of the difficulty reduce: the recipe's own difficulty goes up by one. */
  function Bump(c: DifficultyCounts, d: Difficulty): DifficultyCounts
  {
    match d
    case Easy => c.(easy := c.easy + 1)
    case Medium => c.(medium := c.medium + 1)
    case Hard => c.(hard := c.hard + 1)
  }

  /** The difficulty reduce, starting from all three keys at 0. */
  function CountByDifficulty(rs: seq<Recipe>): DifficultyCounts
  {
    if rs == [] then DifficultyCounts(0, 0, 0)
    else Bump(CountByDifficulty(rs[..|rs| - 1]), rs[|rs| - 1].difficulty)
  }

  function DifficultiesOf(rs: seq<Recipe>): seq<Difficulty>
  {
    seq(|rs|, i requires 0 <= i < |rs| => rs[i].difficulty)
  }

  /** Each difficulty's count is the number of recipes of that difficulty, and the three
      counts add up to the size of the collection. */
  lemma {:induction false} CountByDifficultySpec(rs: seq<Recipe>)
    ensures CountByDifficulty(rs).easy == multiset(DifficultiesOf(rs))[Easy]
    ensures CountByDifficulty(rs).medium == multiset(DifficultiesOf(rs))[Medium]
    ensures CountByDifficulty(rs).hard == multiset(DifficultiesOf(rs))[Hard]
    ensures CountByDifficulty(rs).easy + CountByDifficulty(rs).medium + CountByDifficulty(rs).hard == |rs|
  {
    if rs != [] {
      var init := rs[..|rs| - 1];
      CountByDifficultySpec(init);
      assert DifficultiesOf(rs) == DifficultiesOf(init) + [rs[|rs| - 1].difficulty];
    }
  }

  /** The mean cooking time lies between the smallest and the largest cooking time. */
  lemma MeanCookingTimeBounds(rs: seq<Recipe>, lo: real, hi: real)
    requires rs != []
    requires forall i :: 0 <= i < |rs| ==> lo <= rs[i].cookingTime <= hi
    ensures lo <= MeanCookingTime(rs) <= hi
  {
    SumCookingTimeBounds(rs, lo, hi);
    var n := |rs| as real;
    assert lo * n <= SumCookingTime(rs) <= hi * n;
    assert MeanCookingTime(rs) * n == SumCookingTime(rs);
  }

  lemma {:induction false} SumCookingTimeBounds(rs: seq<Recipe>, lo: real, hi: real)
    requires forall i :: 0 <= i < |rs| ==> lo <= rs[i].cookingTime <= hi
    ensures lo * |rs| as real <= SumCookingTime(rs) <= hi * |rs| as real
  {
    if rs != [] {
      SumCookingTimeBounds(rs[..|rs| - 1], lo, hi);
    }
  }

  /** The normalised names of one ingredient list. */
  function NormalizeAll(l: seq<string>): seq<string>
  {
    if l == [] then [] else NormalizeAll(l[..|l| - 1]) + [Normalize(l[|l| - 1])]
  }

  /** Every normalised ingredient of the collection, recipe by recipe, in list order. */
  function AllIngredients(rs: seq<Recipe>): seq<string>
  {
    if rs == [] then [] else AllIngredients(rs[..|rs| - 1]) + NormalizeAll(rs[|rs| - 1].ingredients)
  }

  /** How often the normalised name occurs across all ingredient lists. */
  function Occurrences(rs: seq<Recipe>, name: string): nat
  {
    multiset(AllIngredients(rs))[name]
  }

  /** The distinct elements of `l` in order of first appearance. */
  function Dedupe(l: seq<string>): seq<string>
  {
    if l == [] then []
    else
      var d := Dedupe(l[..|l| - 1]);
      if l[|l| - 1] in d then d else d + [l[|l| - 1]]
  }

  predicate Distinct(l: seq<string>)
  {
    forall i, j :: 0 <= i < j < |l| ==> l[i] != l[j]
  }

  lemma {:induction false} DedupeSpec(l: seq<string>)
    ensures forall x :: x in Dedupe(l) <==> x in l
    ensures Distinct(Dedupe(l))
  {
    if l != [] {
      DedupeSpec(l[..|l| - 1]);
      assert l == l[..|l| - 1] + [l[|l| - 1]];
    }
  }

  /** The dictionary and its key insertion order after counting the names in `done`. */
  ghost predicate Tallied(counts: map<string, nat>, keys: seq<string>, done: seq<string>)
  {
    && keys == Dedupe(done)
    && (forall k :: k in counts <==> k in done)
    && (forall k :: k in counts ==> counts[k] == multiset(done)[k])
  }

  /** Counting one more name: a known key goes up by one, a new key enters at 1 and
      joins the key order at the end. */
  lemma TallyStep(counts: map<string, nat>, keys: seq<string>, done: seq<string>, x: string)
    requires Tallied(counts, keys, done)
    ensures x in counts ==> Tallied(counts[x := counts[x] + 1], keys, done + [x])
    ensures x !in counts ==> Tallied(counts[x := 1], keys + [x], done + [x])
  {
    DedupeSpec(done);
    assert (done + [x])[..|done|] == done;
  }

  lemma AllIngredientsStep(rs: seq<Recipe>, i: int)
    requires 0 <= i < |rs|
    ensures AllIngredients(rs[..i + 1]) == AllIngredients(rs[..i]) + NormalizeAll(rs[i].ingredients)
  {
    assert rs[..i + 1][..i] == rs[..i];
  }

  lemma NormalizeAllStep(before: seq<string>, l: seq<string>, j: int)
    requires 0 <= j < |l|
    ensures before + NormalizeAll(l[..j + 1]) == (before + NormalizeAll(l[..j])) + [Normalize(l[j])]
  {
    assert l[..j + 1][..j] == l[..j];
    assert NormalizeAll(l[..j + 1]) == NormalizeAll(l[..j]) + [Normalize(l[j])];
  }

  /** `ingredientCounts[name] = (ingredientCounts[name] || 0) + 1`; a key the dictionary
      did not have joins its key order at the end. */
  method Increment(counts0: map<string, nat>, keys0: seq<string>, name: string, ghost done: seq<string>)
    returns (counts: map<string, nat>, keys: seq<string>)
    requires Tallied(counts0, keys0, done)
    ensures Tallied(counts, keys, done + [name])
  {
    TallyStep(counts0, keys0, done, name);
    if name in counts0 {
      counts, keys := counts0[name := counts0[name] + 1], keys0;
    } else {
      counts, keys := counts0[name := 1], keys0 + [name];
    }
  }

  /** The inner forEach: counts one recipe's ingredients into the dictionary. */
  method CountList(counts0: map<string, nat>, keys0: seq<string>, ingredients: seq<string>, ghost before: seq<string>)
    returns (counts: map<string, nat>, keys: seq<string>)
    requires Tallied(counts0, keys0, before)
    ensures Tallied(counts, keys, before + NormalizeAll(ingredients))
  {
    counts, keys := counts0, keys0;
    var j := 0;
    assert before + NormalizeAll(ingredients[..j]) == before;
    while j < |ingredients|
      invariant 0 <= j <= |ingredients|
      invariant Tallied(counts, keys, before + NormalizeAll(ingredients[..j]))
    {
      counts, keys := Increment(counts, keys, Normalize(ingredients[j]), before + NormalizeAll(ingredients[..j]));
      NormalizeAllStep(before, ingredients, j);
      j := j + 1;
    }
    assert ingredients[..j] == ingredients;
  }

  /** The forEach that fills the ingredient dictionary; `keys` is the order in which the
      dictionary received its keys. */
  method CountIngredients(recipes: seq<Recipe>) returns (counts: map<string, nat>, keys: seq<string>)
    ensures keys == Dedupe(AllIngredients(recipes))
    ensures forall k :: k in counts <==> k in AllIngredients(recipes)
    ensures forall k :: k in counts ==> counts[k] == Occurrences(recipes, k)
  {
    counts, keys := map[], [];
    var i := 0;
    while i < |recipes|
      invariant 0 <= i <= |recipes|
      invariant Tallied(counts, keys, AllIngredients(recipes[..i]))
    {
      counts, keys := CountList(counts, keys, recipes[i].ingredients, AllIngredients(recipes[..i]));
      AllIngredientsStep(recipes, i);
      i := i + 1;
    }
    assert recipes[..i] == recipes;
  }

  /** The dictionary's entries in key order. */
  function Entries(keys: seq<string>, counts: map<string, nat>): seq<IngredientCount>
    requires forall i :: 0 <= i < |keys| ==> keys[i] in counts
  {
    seq(|keys|, i requires 0 <= i < |keys| => IngredientCount(keys[i], counts[keys[i]]))
  }

  function CountKey(): IngredientCount -> real
  {
    (e: IngredientCount) => e.count as real
  }

  /** Entries sorted by descending count (`b - a`), the first ten kept. */
  function TopIngredients(keys: seq<string>, counts: map<string, nat>): seq<IngredientCount>
    requires forall i :: 0 <= i < |keys| ==> keys[i] in counts
  {
    var sorted := SortBy(Entries(keys, counts), CountKey(), true);
    sorted[..if |sorted| < 10 then |sorted| else 10]
  }

  /** The normalised ingredients in order of first appearance, each with its number of
      occurrences: the reference ranking input. */
  function Ranking(rs: seq<Recipe>): seq<IngredientCount>
  {
    var names := Dedupe(AllIngredients(rs));
    seq(|names|, i requires 0 <= i < |names| => IngredientCount(names[i], Occurrences(rs, names[i])))
  }

  /** No entry of `top` names `k`. */
  predicate Omits(top: seq<IngredientCount>, k: string)
  {
    forall i :: 0 <= i < |top| ==> top[i].ingredient != k
  }

  lemma {:induction false} DistinctAtMostOnce<T>(b: seq<T>, x: T)
    requires forall i, j :: 0 <= i < j < |b| ==> b[i] != b[j]
    ensures multiset(b)[x] <= 1
  {
    if b != [] {
      assert b == [b[0]] + b[1..];
      DistinctAtMostOnce(b[1..], x);
      if x == b[0] {
        assert x !in b[1..];
      }
    }
  }

  /** A permutation of a sequence without repeats has no repeats. */
  lemma PermutationDistinct<T>(a: seq<T>, b: seq<T>)
    requires multiset(a) == multiset(b)
    requires forall i, j :: 0 <= i < j < |b| ==> b[i] != b[j]
    ensures forall i, j :: 0 <= i < j < |a| ==> a[i] != a[j]
  {
    forall i, j | 0 <= i < j < |a| ensures a[i] != a[j] {
      if a[i] == a[j] {
        assert a == a[..j] + [a[j]] + a[j + 1..];
        assert a[i] in multiset(a[..j]);
        assert multiset(a)[a[i]] >= 2;
        DistinctAtMostOnce(b, a[i]);
        assert false;
      }
    }
  }

  /** The sorted entries: as many as there are keys, each a dictionary entry, no key
      twice, counts non-increasing. */
  lemma SortedEntries(keys: seq<string>, counts: map<string, nat>)
    requires forall i :: 0 <= i < |keys| ==> keys[i] in counts
    requires Distinct(keys)
    ensures var sorted := SortBy(Entries(keys, counts), CountKey(), true);
      && |sorted| == |keys|
      && multiset(sorted) == multiset(Entries(keys, counts))
      && (forall i :: 0 <= i < |sorted| ==>
            sorted[i].ingredient in keys && sorted[i].count == counts[sorted[i].ingredient])
      && (forall i, j :: 0 <= i < j < |sorted| ==> sorted[i].ingredient != sorted[j].ingredient)
      && (forall i, j :: 0 <= i < j < |sorted| ==> sorted[i].count >= sorted[j].count)
  {
    var entries := Entries(keys, counts);
    var sorted := SortBy(entries, CountKey(), true);
    SortByPermutes(entries, CountKey(), true);
    SortByOrdered(entries, CountKey(), true);
    assert |sorted| == |entries| by {
      assert |multiset(sorted)| == |multiset(entries)|;
    }
    forall i | 0 <= i < |sorted|
      ensures sorted[i].ingredient in keys && sorted[i].count == counts[sorted[i].ingredient]
    {
      assert sorted[i] in multiset(entries);
    }
    assert forall i, j :: 0 <= i < j < |entries| ==> entries[i] != entries[j] by {
      forall i, j | 0 <= i < j < |entries| ensures entries[i] != entries[j] {
        assert entries[i].ingredient == keys[i] && entries[j].ingredient == keys[j];
      }
    }
    PermutationDistinct(sorted, entries);
    forall i, j | 0 <= i < j < |sorted| ensures sorted[i].ingredient != sorted[j].ingredient {
      assert sorted[i] != sorted[j];
    }
  }

  /** A key the top list leaves out has a count no larger than the tenth entry's. */
  lemma TopIsComplete(keys: seq<string>, counts: map<string, nat>, k: string)
    requires forall i :: 0 <= i < |keys| ==> keys[i] in counts
    requires Distinct(keys)
    requires k in keys && Omits(TopIngredients(keys, counts), k)
    ensures |TopIngredients(keys, counts)| == 10
    ensures counts[k] <= TopIngredients(keys, counts)[9].count
  {
    var entries := Entries(keys, counts);
    var sorted := SortBy(entries, CountKey(), true);
    SortedEntries(keys, counts);
    var m := if |sorted| < 10 then |sorted| else 10;
    var p :| 0 <= p < |keys| && keys[p] == k;
    assert entries[p] in multiset(sorted);
    var q :| 0 <= q < |sorted| && sorted[q] == entries[p];
    assert TopIngredients(keys, counts) == sorted[..m];
    assert q >= m;
  }

  /** Among entries of equal count the top list keeps the dictionary's key order. */
  lemma TopKeepsKeyOrder(keys: seq<string>, counts: map<string, nat>, c: real)
    requires forall i :: 0 <= i < |keys| ==> keys[i] in counts
    ensures WithKey(TopIngredients(keys, counts), CountKey(), c) <= WithKey(Entries(keys, counts), CountKey(), c)
  {
    var entries := Entries(keys, counts);
    var sorted := SortBy(entries, CountKey(), true);
    var m := if |sorted| < 10 then |sorted| else 10;
    SortByStable(entries, CountKey(), true, c);
    assert sorted == sorted[..m] + sorted[m..];
    WithKeyAppend(sorted[..m], sorted[m..], CountKey(), c);
  }

  /** The top list holds at most ten distinct dictionary entries by non-increasing count;
      any key left out has a count no larger than the tenth; and among entries of equal
      count it keeps the dictionary's key order. */
  lemma TopIngredientsSpec(keys: seq<string>, counts: map<string, nat>)
    requires forall i :: 0 <= i < |keys| ==> keys[i] in counts
    requires Distinct(keys)
    ensures var top := TopIngredients(keys, counts);
      && |top| <= 10
      && (forall i, j :: 0 <= i < j < |top| ==> top[i].count >= top[j].count)
      && (forall i :: 0 <= i < |top| ==>
            top[i].ingredient in keys && top[i].count == counts[top[i].ingredient])
      && (forall i, j :: 0 <= i < j < |top| ==> top[i].ingredient != top[j].ingredient)
      && (forall k :: k in keys && Omits(top, k) ==> |top| == 10 && counts[k] <= top[9].count)
      && (forall c :: WithKey(top, CountKey(), c) <= WithKey(Entries(keys, counts), CountKey(), c))
  {
    SortedEntries(keys, counts);
    forall k | k in keys && Omits(TopIngredients(keys, counts), k)
      ensures |TopIngredients(keys, counts)| == 10
      ensures counts[k] <= TopIngredients(keys, counts)[9].count
    {
      TopIsComplete(keys, counts, k);
    }
    forall c ensures WithKey(TopIngredients(keys, counts), CountKey(), c)
                     <= WithKey(Entries(keys, counts), CountKey(), c) {
      TopKeepsKeyOrder(keys, counts, c);
    }
  }

  /** getRecipeStats over a snapshot of the collection. */
  method GetRecipeStats(recipes: seq<Recipe>) returns (s: Stats)
    ensures recipes == [] ==> s == Stats(0, 0.0, 0.0, DifficultyCounts(0, 0, 0), [])
    ensures s.totalRecipes == |recipes|
    ensures recipes != [] ==> s.averageCookingTime == RoundTo(MeanCookingTime(recipes), 100.0)
    ensures recipes != [] ==> s.averageRating == RoundTo(MeanOfMeanRatings(recipes), 100.0)
    ensures s.recipesByDifficulty.easy == multiset(DifficultiesOf(recipes))[Easy]
    ensures s.recipesByDifficulty.medium == multiset(DifficultiesOf(recipes))[Medium]
    ensures s.recipesByDifficulty.hard == multiset(DifficultiesOf(recipes))[Hard]
    ensures s.recipesByDifficulty.easy + s.recipesByDifficulty.medium + s.recipesByDifficulty.hard
            == s.totalRecipes
    ensures var top := s.mostCommonIngredients;
      && |top| <= 10
      && (forall i, j :: 0 <= i < j < |top| ==> top[i].count >= top[j].count)
      && (forall i :: 0 <= i < |top| ==>
            top[i].ingredient in AllIngredients(recipes)
            && top[i].count == Occurrences(recipes, top[i].ingredient))
      && (forall i, j :: 0 <= i < j < |top| ==> top[i].ingredient != top[j].ingredient)
      && (forall k :: k in AllIngredients(recipes) && Omits(top, k) ==>
            |top| == 10 && Occurrences(recipes, k) <= top[9].count)
      && (forall c :: WithKey(top, CountKey(), c) <= WithKey(Ranking(recipes), CountKey(), c))
  {
    if |recipes| == 0 {
      assert DifficultiesOf(recipes) == [];
      return Stats(0, 0.0, 0.0, DifficultyCounts(0, 0, 0), []);
    }
    var averageCookingTime := SumCookingTime(recipes) / |recipes| as real;
    var averageRating := SumMeanRatings(recipes) / |recipes| as real;
    var byDifficulty := CountByDifficulty(recipes);
    CountByDifficultySpec(recipes);
    var counts, keys := CountIngredients(recipes);
    DedupeSpec(AllIngredients(recipes));
    TopIngredientsSpec(keys, counts);
    assert Entries(keys, counts) == Ranking(recipes);
    var top := TopIngredients(keys, counts);
    s := Stats(|recipes|, RoundTo(averageCookingTime, 100.0), RoundTo(averageRating, 100.0),
               byDifficulty, top);
  }
}
