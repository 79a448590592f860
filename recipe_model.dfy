/** The recipe record as it sits in the persisted JSON array, and the shape of a
    request body that the validation middleware lets through to create and update. */
module RecipeModel {

  datatype Option<+T> = None | Some(value: T)

  /** The three difficulty values the request schema admits. */
  datatype Difficulty = Easy | Medium | Hard

  /** The string a recipe's difficulty is stored and queried as. */
  function DifficultyName(d: Difficulty): string
  {
    match d
    case Easy => "easy"
    case Medium => "medium"
    case Hard => "hard"
  }

  /** One stored recipe. `ratings` is None when the field is missing from the document;
      `rating` and `updatedAt` are absent until the first rating and the first update.
      Timestamps are milliseconds since the epoch. */
  datatype Recipe = Recipe(
    id: string,
    title: string,
    description: string,
    ingredients: seq<string>,
    instructions: seq<string>,
    cookingTime: real,
    servings: int,
    difficulty: Difficulty,
    ratings: Option<seq<real>>,
    rating: Option<real>,
    createdAt: int,
    updatedAt: Option<int>)

  /** The fields of a create or update request body. */
  datatype RecipeInput = RecipeInput(
    title: string,
    description: string,
    ingredients: seq<string>,
    instructions: seq<string>,
    cookingTime: real,
    servings: int,
    difficulty: Difficulty)

  /** The request schema: title of 3 to 100 characters, description of 10 to 500, at least
      one ingredient and one instruction, each a non-empty string, and a positive cooking
      time and serving count. */
  predicate ValidInput(b: RecipeInput)
  {
    && 3 <= |b.title| <= 100
    && 10 <= |b.description| <= 500
    && |b.ingredients| >= 1
    && (forall i :: 0 <= i < |b.ingredients| ==> b.ingredients[i] != "")
    && |b.instructions| >= 1
    && (forall i :: 0 <= i < |b.instructions| ==> b.instructions[i] != "")
    && b.cookingTime > 0.0
    && b.servings > 0
  }

  /** The body fields of a stored recipe. */
  function InputOf(r: Recipe): RecipeInput
  {
    RecipeInput(r.title, r.description, r.ingredients, r.instructions,
                r.cookingTime, r.servings, r.difficulty)
  }

  /** A stored recipe whose body fields satisfy the request schema. */
  predicate ValidRecipe(r: Recipe)
  {
    ValidInput(InputOf(r))
  }

  /** The ratings list, a missing one read as empty. */
  function RatingsOf(r: Recipe): seq<real>
  {
    match r.ratings
    case None => []
    case Some(rs) => rs
  }

  function Sum(xs: seq<real>): real
  {
    if xs == [] then 0.0 else Sum(xs[..|xs| - 1]) + xs[|xs| - 1]
  }

  /** The raw average of a recipe's ratings, 0 when there are none. */
  function MeanRating(r: Recipe): real
  {
    var rs := RatingsOf(r);
    if |rs| > 0 then Sum(rs) / |rs| as real else 0.0
  }

  /** JavaScript's Math.round: round half up. */
  function Round(x: real): int
  {
    (x + 0.5).Floor
  }

  /** Math.round(x * scale) / scale. */
  function RoundTo(x: real, scale: real): real
    requires scale > 0.0
  {
    Round(x * scale) as real / scale
  }

  lemma RoundIsNearest(x: real)
    ensures x - 0.5 < Round(x) as real <= x + 0.5
  {
  }

  /** Rounding to 1/scale moves a value by at most half a step. */
  lemma {:induction false} RoundToIsNearest(x: real, scale: real)
    requires scale > 0.0
    ensures x - 0.5 / scale < RoundTo(x, scale) <= x + 0.5 / scale
  {
    RoundIsNearest(x * scale);
    var n := Round(x * scale) as real;
    assert x * scale - 0.5 < n <= x * scale + 0.5;
    assert n / scale == RoundTo(x, scale);
    DivideBounds(x * scale - 0.5, n, x * scale + 0.5, scale);
    assert (x * scale - 0.5) / scale == x - 0.5 / scale;
    assert (x * scale + 0.5) / scale == x + 0.5 / scale;
  }

  lemma DivideBounds(lo: real, v: real, hi: real, d: real)
    requires d > 0.0 && lo < v <= hi
    ensures lo / d < v / d <= hi / d
  {
  }

  /** Some recipe of the collection has id `id`. */
  predicate HasId(rs: seq<Recipe>, id: string)
  {
    exists i :: 0 <= i < |rs| && rs[i].id == id
  }

  /** No two recipes of the collection share an id. */
  predicate UniqueIds(rs: seq<Recipe>)
  {
    forall i, j :: 0 <= i < j < |rs| ==> rs[i].id != rs[j].id
  }

  predicate AllValid(rs: seq<Recipe>)
  {
    forall i :: 0 <= i < |rs| ==> ValidRecipe(rs[i])
  }
}
