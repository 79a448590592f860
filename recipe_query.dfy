/** Listing recipes: the optional difficulty, maximum cooking time and text search
    filters, then the optional stable sort by one of four keys. */
module RecipeQuery {
  import opened RecipeModel
  import opened Text
  import opened Sorting

  /** The query string of a list request. An empty string stands for a parameter that
      is absent (or empty, which the handler treats alike); the maximum cooking time
      arrives already parsed. */
  datatype Query = Query(
    difficulty: string,
    maxCookingTime: Option<int>,
    search: string,
    sort: string,
    order: string)

  /** One filter step of the handler. `Mentions` carries the already lower-cased term. */
  datatype Criterion = HasDifficulty(name: string) | MaxTime(limit: int) | Mentions(term: string)

  predicate Satisfies(r: Recipe, c: Criterion)
  {
    match c
    case HasDifficulty(name) => DifficultyName(r.difficulty) == name
    case MaxTime(limit) => r.cookingTime <= limit as real
    case Mentions(term) => Contains(Lower(r.title), term) || Contains(Lower(r.description), term)
  }

  /** `Array.prototype.filter` with one criterion. */
  function Keep(s: seq<Recipe>, c: Criterion): seq<Recipe>
  {
    if s == [] then []
    else (if Satisfies(s[0], c) then [s[0]] else []) + Keep(s[1..], c)
  }

  /** A recipe meets every criterion the query supplies. */
  predicate Matches(q: Query, r: Recipe)
  {
    && (q.difficulty != "" ==> DifficultyName(r.difficulty) == q.difficulty)
    && (q.maxCookingTime.Some? ==> r.cookingTime <= q.maxCookingTime.value as real)
    && (q.search != "" ==>
          Contains(Lower(r.title), Lower(q.search)) || Contains(Lower(r.description), Lower(q.search)))
  }

  /** The recipes of `s` that match `q`, in collection order: the reference for what the
      three filter steps together keep. */
  function Filtered(s: seq<Recipe>, q: Query): seq<Recipe>
  {
    if s == [] then []
    else (if Matches(q, s[0]) then [s[0]] else []) + Filtered(s[1..], q)
  }

  /** `a` is an order-preserving subsequence of `b`. */
  predicate IsSubsequence<T(==)>(a: seq<T>, b: seq<T>)
  {
    if a == [] then true
    else if b == [] then false
    else if a[0] == b[0] then IsSubsequence(a[1..], b[1..])
    else IsSubsequence(a, b[1..])
  }

  /** The query carries no filter. */
  predicate NoFilter(q: Query)
  {
    q.difficulty == "" && q.maxCookingTime.None? && q.search == ""
  }

  /** The sort keys the handler knows. */
  predicate SupportedSort(field: string)
  {
    field == "rating" || field == "cookingTime" || field == "servings" || field == "createdAt"
  }

  /** The value the comparator subtracts for `field`: the raw mean of the ratings, the
      cooking time, the servings or the creation time; 0 for any other field, so that
      the comparator answers 0. */
  function SortKey(field: string): Recipe -> real
  {
    (r: Recipe) =>
      if field == "rating" then MeanRating(r)
      else if field == "cookingTime" then r.cookingTime
      else if field == "servings" then r.servings as real
      else if field == "createdAt" then r.createdAt as real
      else 0.0
  }

  /** `order=desc` flips the comparator; every other value sorts ascending. */
  predicate Descending(q: Query)
  {
    q.order == "desc"
  }

  /** The filtered list holds exactly the matching recipes, in collection order, each as
      often as in the collection. */
  lemma {:induction false} FilteredSpec(s: seq<Recipe>, q: Query)
    ensures IsSubsequence(Filtered(s, q), s)
    ensures forall i :: 0 <= i < |Filtered(s, q)| ==> Matches(q, Filtered(s, q)[i])
    ensures forall r :: multiset(Filtered(s, q))[r] == if Matches(q, r) then multiset(s)[r] else 0
  {
    if s != [] {
      FilteredSpec(s[1..], q);
      var rest := Filtered(s[1..], q);
      assert s == [s[0]] + s[1..];
      if Matches(q, s[0]) {
        assert Filtered(s, q) == [s[0]] + rest;
        assert Filtered(s, q)[1..] == rest;
      } else {
        assert Filtered(s, q) == rest;
        SubsequenceOfTail(rest, s);
      }
    }
  }

  lemma {:induction false} SubsequenceOfTail<T>(a: seq<T>, b: seq<T>)
    requires b != [] && IsSubsequence(a, b[1..])
    ensures IsSubsequence(a, b)
  {
    if a != [] && a[0] == b[0] {
      SubsequenceDropHead(a, b[1..]);
    }
  }

  lemma {:induction false} SubsequenceDropHead<T>(a: seq<T>, b: seq<T>)
    requires a != [] && IsSubsequence(a, b)
    ensures IsSubsequence(a[1..], b)
  {
    if a[0] == b[0] {
      if a[1..] != [] {
        SubsequenceOfTail(a[1..], b);
      }
    } else {
      SubsequenceDropHead(a, b[1..]);
      if a[1..] != [] {
        SubsequenceOfTail(a[1..], b);
      }
    }
  }

  /** A query with no filter keeps the whole collection in its order. */
  lemma {:induction false} FilteredNoFilter(s: seq<Recipe>, q: Query)
    requires NoFilter(q)
    ensures Filtered(s, q) == s
  {
    if s != [] {
      FilteredNoFilter(s[1..], q);
      assert s == [s[0]] + s[1..];
    }
  }

  /** One filter step narrows the query by one criterion. */
  lemma {:induction false} KeepNarrows(s: seq<Recipe>, qa: Query, qb: Query, c: Criterion)
    requires forall r :: Matches(qb, r) == (Matches(qa, r) && Satisfies(r, c))
    ensures Keep(Filtered(s, qa), c) == Filtered(s, qb)
  {
    if s != [] {
      KeepNarrows(s[1..], qa, qb, c);
      var rest := Filtered(s[1..], qa);
      assert Matches(qb, s[0]) == (Matches(qa, s[0]) && Satisfies(s[0], c));
      if Matches(qa, s[0]) {
        var f := Filtered(s, qa);
        assert f == [s[0]] + rest;
        assert f[0] == s[0] && f[1..] == rest;
        assert Keep(f, c) == (if Satisfies(s[0], c) then [s[0]] else []) + Keep(rest, c);
        assert Filtered(s, qb) == (if Matches(qb, s[0]) then [s[0]] else []) + Filtered(s[1..], qb);
      } else {
        assert Filtered(s, qa) == rest;
      }
    }
  }

  /** The search matches regardless of the case of the term. */
  lemma {:induction false} SearchIgnoresCase(q: Query, r: Recipe)
    ensures Matches(q.(search := Lower(q.search)), r) <==> Matches(q, r)
  {
    LowerIdempotent(q.search);
    assert |Lower(q.search)| == |q.search|;
  }

  /** getAllRecipes over a snapshot of the collection: filter step by step, then sort
      when a sort key is given. */
  method ListRecipes(recipes: seq<Recipe>, q: Query) returns (out: seq<Recipe>)
    ensures multiset(out) == multiset(Filtered(recipes, q))
    ensures q.sort == "" ==> out == Filtered(recipes, q)
    ensures q.sort != "" ==> Ordered(out, SortKey(q.sort), Descending(q))
    ensures forall k :: WithKey(out, SortKey(q.sort), k) == WithKey(Filtered(recipes, q), SortKey(q.sort), k)
    ensures !SupportedSort(q.sort) ==> out == Filtered(recipes, q)
    ensures NoFilter(q) && !SupportedSort(q.sort) ==> out == recipes
  {
    var stage := q.(difficulty := "", maxCookingTime := None, search := "");
    FilteredNoFilter(recipes, stage);
    out := recipes;
    if q.difficulty != "" {
      var next := stage.(difficulty := q.difficulty);
      KeepNarrows(recipes, stage, next, HasDifficulty(q.difficulty));
      out, stage := Keep(out, HasDifficulty(q.difficulty)), next;
    }
    if q.maxCookingTime.Some? {
      var next := stage.(maxCookingTime := q.maxCookingTime);
      KeepNarrows(recipes, stage, next, MaxTime(q.maxCookingTime.value));
      out, stage := Keep(out, MaxTime(q.maxCookingTime.value)), next;
    }
    if q.search != "" {
      var term := Lower(q.search);
      var next := stage.(search := q.search);
      KeepNarrows(recipes, stage, next, Mentions(term));
      out, stage := Keep(out, Mentions(term)), next;
    }
    assert stage == q;
    if q.sort != "" {
      var filtered := out;
      out := SortBy(filtered, SortKey(q.sort), Descending(q));
      SortByPermutes(filtered, SortKey(q.sort), Descending(q));
      SortByOrdered(filtered, SortKey(q.sort), Descending(q));
      forall k ensures WithKey(out, SortKey(q.sort), k) == WithKey(filtered, SortKey(q.sort), k) {
        SortByStable(filtered, SortKey(q.sort), Descending(q), k);
      }
      if !SupportedSort(q.sort) {
        SortByConstantKey(filtered, SortKey(q.sort), Descending(q), 0.0);
      }
    }
    if NoFilter(q) {
      FilteredNoFilter(recipes, q);
    }
  }
}
