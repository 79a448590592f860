/** The recipe store: the persisted collection and the controller operations that look
    a recipe up by id and then read, append, replace, re-rate or remove it. */
module Lifecycle {
  import opened RecipeModel

  /** Why a controller operation answered with an error: 404 'Recipe not found', or 500
      with the operation's own message when writing the document failed. */
  datatype Failure = NotFound | ServerError(message: string)

  datatype Outcome<T> = Ok(value: T) | Fail(failure: Failure)

  /** `findIndex` on the id: the first index holding the id, or None. */
  function IndexOf(rs: seq<Recipe>, id: string): (r: Option<nat>)
    ensures r.None? <==> !HasId(rs, id)
    ensures r.Some? ==> r.value < |rs| && rs[r.value].id == id
    ensures r.Some? ==> forall j :: 0 <= j < r.value ==> rs[j].id != id
  {
    if rs == [] then None
    else if rs[0].id == id then Some(0)
    else match IndexOf(rs[1..], id)
      case None => None
      case Some(k) => Some(k + 1)
  }

  /** A newly created recipe: the given id and creation time, the body's fields, an
      empty ratings list, and neither a rating nor an update time. */
  predicate Fresh(r: Recipe, id: string, now: int, body: RecipeInput)
  {
    && r.id == id && r.createdAt == now
    && InputOf(r) == body
    && r.ratings == Some([]) && r.rating == None && r.updatedAt == None
  }

  /** An update as intended: id, creation time, ratings and rating kept, every body
      field taken from the request, the update time set. */
  predicate Revised(prev: Recipe, next: Recipe, body: RecipeInput, now: int)
  {
    && next.id == prev.id && next.createdAt == prev.createdAt
    && next.ratings == prev.ratings && next.rating == prev.rating
    && InputOf(next) == body
    && next.updatedAt == Some(now)
  }

  /** A rating appended: the list (a missing one read as empty) grows by the new value
      at its end, the rating becomes the mean rounded to one decimal, nothing else
      changes, the update time included. */
  predicate Rated(prev: Recipe, next: Recipe, value: real)
  {
    && next.ratings == Some(RatingsOf(prev) + [value])
    && next.rating == Some(RoundTo(MeanRating(next), 10.0))
    && next == prev.(ratings := next.ratings, rating := next.rating)
  }

  /** The stored rating is the rounded mean of the stored ratings, and absent while
      there are none. */
  predicate RatingCurrent(r: Recipe)
  {
    if RatingsOf(r) == [] then r.rating.None?
    else r.rating == Some(RoundTo(MeanRating(r), 10.0))
  }

  predicate AllRatingsCurrent(rs: seq<Recipe>)
  {
    forall i :: 0 <= i < |rs| ==> RatingCurrent(rs[i])
  }

  /** Appending a recipe with an unused id keeps the ids unique. */
  lemma AppendKeepsIdsUnique(rs: seq<Recipe>, r: Recipe)
    requires UniqueIds(rs) && !HasId(rs, r.id)
    ensures UniqueIds(rs + [r])
  {
    forall i, j | 0 <= i < j < |rs + [r]| ensures (rs + [r])[i].id != (rs + [r])[j].id {
      if j == |rs| {
        assert (rs + [r])[i] == rs[i];
      }
    }
  }

  /** Replacing a recipe by one with the same id keeps the ids unique. */
  lemma ReplaceKeepsIdsUnique(rs: seq<Recipe>, i: int, r: Recipe)
    requires UniqueIds(rs) && 0 <= i < |rs| && r.id == rs[i].id
    ensures UniqueIds(rs[i := r])
  {
  }

  /** Removing the recipe at `i` from a collection with unique ids removes its id. */
  lemma RemoveDropsId(rs: seq<Recipe>, i: int)
    requires UniqueIds(rs) && 0 <= i < |rs|
    ensures UniqueIds(rs[..i] + rs[i + 1..])
    ensures !HasId(rs[..i] + rs[i + 1..], rs[i].id)
    ensures forall id :: id != rs[i].id ==> (HasId(rs[..i] + rs[i + 1..], id) <==> HasId(rs, id))
  {
    var rest := rs[..i] + rs[i + 1..];
    assert forall j :: 0 <= j < |rest| ==> rest[j] == if j < i then rs[j] else rs[j + 1];
    forall id | id != rs[i].id && HasId(rs, id) ensures HasId(rest, id) {
      var k :| 0 <= k < |rs| && rs[k].id == id;
      assert rest[if k < i then k else k - 1].id == id;
    }
  }

  /** Removing the recipe at `i` keeps the others, in their order, so every property
      that holds of each stored recipe still holds. */
  lemma RemoveKeepsOthers(rs: seq<Recipe>, i: int)
    requires 0 <= i < |rs|
    ensures |rs[..i] + rs[i + 1..]| == |rs| - 1
    ensures forall j :: 0 <= j < |rs| - 1 ==> (rs[..i] + rs[i + 1..])[j] == if j < i then rs[j] else rs[j + 1]
    ensures AllValid(rs) ==> AllValid(rs[..i] + rs[i + 1..])
    ensures AllRatingsCurrent(rs) ==> AllRatingsCurrent(rs[..i] + rs[i + 1..])
  {
    var rest := rs[..i] + rs[i + 1..];
    assert forall j :: 0 <= j < |rest| ==> rest[j] == if j < i then rs[j] else rs[j + 1];
  }

  /** A rated recipe's stored rating is within 0.05 of the mean of its ratings. */
  lemma RatedIsNearMean(prev: Recipe, next: Recipe, value: real)
    requires Rated(prev, next, value)
    ensures MeanRating(next) - 0.05 < next.rating.value <= MeanRating(next) + 0.05
    ensures RatingCurrent(next)
  {
    RoundToIsNearest(MeanRating(next), 10.0);
  }

  /** updateRecipe as written: for a present id, building the updated record reads the
      undeclared `existingRatings`; the ReferenceError lands in the catch block, so the
      caller gets 500 and the document is never written. */
  function UpdateAsWritten(rs: seq<Recipe>, id: string): (r: Outcome<Recipe>)
    ensures r.Fail?
    ensures r == Fail(NotFound) <==> !HasId(rs, id)
  {
    match IndexOf(rs, id)
    case None => Fail(NotFound)
    case Some(_) => Fail(ServerError("Error updating recipe"))
  }

  /** Every update of a stored recipe fails as written, where the intended update
      succeeds and keeps the ratings. */
  lemma UpdateAsWrittenRejectsStoredIds(rs: seq<Recipe>, i: int, body: RecipeInput, now: int)
    requires 0 <= i < |rs|
    ensures UpdateAsWritten(rs, rs[i].id) == Fail(ServerError("Error updating recipe"))
    ensures Revised(rs[i], IntendedRevision(rs[i], body, now), body, now)
  {
    assert HasId(rs, rs[i].id);
  }

  /** The record the update evidently means to store: the previous record, overwritten
      by the body's fields, with id, creation time and ratings kept and the update
      time set. */
  function IntendedRevision(prev: Recipe, body: RecipeInput, now: int): Recipe
  {
    prev.(title := body.title, description := body.description,
          ingredients := body.ingredients, instructions := body.instructions,
          cookingTime := body.cookingTime, servings := body.servings,
          difficulty := body.difficulty, updatedAt := Some(now))
  }

  /** The persisted collection. Each operation reads it, works on the copy, and writes
      the copy back; `writeSucceeds` says whether that write goes through. A failed
      write leaves the collection as it was. */
  class RecipeStore {
    var recipes: seq<Recipe>

    constructor (initial: seq<Recipe>)
      ensures recipes == initial
    {
      recipes := initial;
    }

    /** getRecipeById: the first recipe with the id, or NotFound. */
    function Get(id: string): (r: Outcome<Recipe>)
      reads this
      ensures r.Fail? <==> !HasId(recipes, id)
      ensures r.Fail? ==> r.failure == NotFound
      ensures r.Ok? ==> exists i :: 0 <= i < |recipes| && recipes[i] == r.value && r.value.id == id
                                   && forall j :: 0 <= j < i ==> recipes[j].id != id
    {
      match IndexOf(recipes, id)
      case None => Fail(NotFound)
      case Some(i) => Ok(recipes[i])
    }

    /** createRecipe: appends one fresh recipe. `id` stands for the identifier generator's
        output, which no stored recipe carries, and `now` for the clock. */
    method Create(id: string, now: int, body: RecipeInput, writeSucceeds: bool) returns (r: Outcome<Recipe>)
      requires !HasId(recipes, id)
      modifies this
      ensures !writeSucceeds ==> r == Fail(ServerError("Error creating recipe")) && recipes == old(recipes)
      ensures writeSucceeds ==> r.Ok? && Fresh(r.value, id, now, body) && recipes == old(recipes) + [r.value]
      ensures UniqueIds(old(recipes)) ==> UniqueIds(recipes)
      ensures ValidInput(body) && AllValid(old(recipes)) ==> AllValid(recipes)
      ensures AllRatingsCurrent(old(recipes)) ==> AllRatingsCurrent(recipes)
    {
      var created := Recipe(id, body.title, body.description, body.ingredients, body.instructions,
                            body.cookingTime, body.servings, body.difficulty, Some([]), None, now, None);
      if !writeSucceeds {
        return Fail(ServerError("Error creating recipe"));
      }
      if UniqueIds(recipes) {
        AppendKeepsIdsUnique(recipes, created);
      }
      recipes := recipes + [created];
      r := Ok(created);
    }

    /** updateRecipe as intended: replaces the first recipe with the id by its revision. */
    method Update(id: string, now: int, body: RecipeInput, writeSucceeds: bool) returns (r: Outcome<Recipe>)
      modifies this
      ensures IndexOf(old(recipes), id).None? ==> r == Fail(NotFound) && recipes == old(recipes)
      ensures IndexOf(old(recipes), id).Some? && !writeSucceeds ==>
        r == Fail(ServerError("Error updating recipe")) && recipes == old(recipes)
      ensures IndexOf(old(recipes), id).Some? && writeSucceeds ==>
        var i := IndexOf(old(recipes), id).value;
        && r.Ok? && Revised(old(recipes)[i], r.value, body, now)
        && |recipes| == |old(recipes)| && recipes[i] == r.value
        && (forall j :: 0 <= j < |recipes| && j != i ==> recipes[j] == old(recipes)[j])
      ensures UniqueIds(old(recipes)) ==> UniqueIds(recipes)
      ensures ValidInput(body) && AllValid(old(recipes)) ==> AllValid(recipes)
      ensures AllRatingsCurrent(old(recipes)) ==> AllRatingsCurrent(recipes)
    {
      var found := IndexOf(recipes, id);
      if found.None? {
        return Fail(NotFound);
      }
      var i := found.value;
      var updated := IntendedRevision(recipes[i], body, now);
      if !writeSucceeds {
        return Fail(ServerError("Error updating recipe"));
      }
      if UniqueIds(recipes) {
        ReplaceKeepsIdsUnique(recipes, i, updated);
      }
      assert RatingsOf(updated) == RatingsOf(recipes[i]) && MeanRating(updated) == MeanRating(recipes[i]);
      recipes := recipes[i := updated];
      r := Ok(updated);
    }

    /** updateRating: appends the value to the first recipe with the id and stores the
        rounded mean; the new rating is what the caller gets back. */
    method Rate(id: string, value: real, writeSucceeds: bool) returns (r: Outcome<real>)
      modifies this
      ensures IndexOf(old(recipes), id).None? ==> r == Fail(NotFound) && recipes == old(recipes)
      ensures IndexOf(old(recipes), id).Some? && !writeSucceeds ==>
        r == Fail(ServerError("Error updating rating")) && recipes == old(recipes)
      ensures IndexOf(old(recipes), id).Some? && writeSucceeds ==>
        var i := IndexOf(old(recipes), id).value;
        && |recipes| == |old(recipes)| && Rated(old(recipes)[i], recipes[i], value)
        && (forall j :: 0 <= j < |recipes| && j != i ==> recipes[j] == old(recipes)[j])
        && r == Ok(recipes[i].rating.value)
      ensures UniqueIds(old(recipes)) ==> UniqueIds(recipes)
      ensures AllValid(old(recipes)) ==> AllValid(recipes)
      ensures AllRatingsCurrent(old(recipes)) ==> AllRatingsCurrent(recipes)
    {
      var found := IndexOf(recipes, id);
      if found.None? {
        return Fail(NotFound);
      }
      var i := found.value;
      var recipe := recipes[i];
      var ratings := RatingsOf(recipe);
      ratings := ratings + [value];
      var averageRating := Sum(ratings) / |ratings| as real;
      recipe := recipe.(ratings := Some(ratings), rating := Some(RoundTo(averageRating, 10.0)));
      if !writeSucceeds {
        return Fail(ServerError("Error updating rating"));
      }
      RatedIsNearMean(recipes[i], recipe, value);
      if UniqueIds(recipes) {
        ReplaceKeepsIdsUnique(recipes, i, recipe);
      }
      recipes := recipes[i := recipe];
      r := Ok(recipe.rating.value);
    }

    /** deleteRecipe: removes the first recipe with the id; the rest keep their order. */
    method Delete(id: string, writeSucceeds: bool) returns (r: Outcome<()>)
      modifies this
      ensures IndexOf(old(recipes), id).None? ==> r == Fail(NotFound) && recipes == old(recipes)
      ensures IndexOf(old(recipes), id).Some? && !writeSucceeds ==>
        r == Fail(ServerError("Error deleting recipe")) && recipes == old(recipes)
      ensures IndexOf(old(recipes), id).Some? && writeSucceeds ==>
        var i := IndexOf(old(recipes), id).value;
        && r == Ok(())
        && recipes == old(recipes)[..i] + old(recipes)[i + 1..]
      ensures writeSucceeds && UniqueIds(old(recipes)) ==> !HasId(recipes, id)
      ensures UniqueIds(old(recipes)) ==> UniqueIds(recipes)
      ensures AllValid(old(recipes)) ==> AllValid(recipes)
      ensures AllRatingsCurrent(old(recipes)) ==> AllRatingsCurrent(recipes)
    {
      var found := IndexOf(recipes, id);
      if found.None? {
        return Fail(NotFound);
      }
      var i := found.value;
      if !writeSucceeds {
        return Fail(ServerError("Error deleting recipe"));
      }
      RemoveKeepsOthers(recipes, i);
      if UniqueIds(recipes) {
        RemoveDropsId(recipes, i);
      }
      recipes := recipes[..i] + recipes[i + 1..];
      r := Ok(());
    }
  }

  /** The mean of the ratings 4 and 5, rounded to one decimal, is 4.5. */
  lemma MeanOfFourAndFive(x: Recipe)
    requires RatingsOf(x) == [4.0, 5.0]
    ensures MeanRating(x) == 4.5 && RoundTo(MeanRating(x), 10.0) == 4.5
  {
    assert Sum([4.0, 5.0]) == 9.0 by {
      assert [4.0, 5.0][..1] == [4.0];
      assert [4.0][..0] == [];
    }
  }

  /** Rating a recipe 4 and then 5 stores both ratings, in order, and answers 4.5. */
  method RatingScenario(r1: Recipe)
    requires r1.id == "1" && r1.ratings == Some([])
  {
    var store := new RecipeStore([r1]);
    assert IndexOf(store.recipes, "1") == Some(0);
    var a := store.Rate("1", 4.0, true);
    ghost var once := store.recipes[0];
    assert RatingsOf(once) == [4.0] && once.id == "1";
    assert IndexOf(store.recipes, "1") == Some(0);
    var b := store.Rate("1", 5.0, true);
    ghost var twice := store.recipes[0];
    assert RatingsOf(twice) == [4.0, 5.0];
    MeanOfFourAndFive(twice);
    assert b == Ok(4.5);
  }

  /** After a recipe is deleted, looking it up fails and the other one remains. */
  method DeleteScenario(r1: Recipe, r2: Recipe)
    requires r1.id == "1" && r2.id == "2"
  {
    var store := new RecipeStore([r1, r2]);
    assert IndexOf(store.recipes, "2") == Some(1);
    var c := store.Delete("2", true);
    assert c == Ok(());
    assert store.recipes == [r1];
    assert store.Get("2") == Fail(NotFound);
    assert store.Get("1") == Ok(r1);
  }
}
