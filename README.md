# Recipes API: verified model of the recipe collection engine

This project models the recipe controller of a small Express recipes service, plus its
error middleware, and proves properties of the model.

The controller keeps its recipes as one JSON array in a file. Each request reads the
array, works on it and, for a change, writes it back. The model has one module per part:

- `RecipeModel`: the stored recipe record and the request body of create and update.
  It also holds the validation schema's constraints (`ValidInput`), the raw mean of a
  recipe's ratings and `Math.round`.
- `Text`: ASCII `toLowerCase`, JavaScript `trim` and `includes`, plus the ingredient
  normalisation (lower-case, then trim).
- `Sorting`: the stable sort `Array.prototype.sort` performs with a comparator
  `(key(a) - key(b)) * sign`. It is written as an insertion sort on sequences. Any stable
  sort returns the same sequence for such a comparator.
- `RecipeQuery`: `getAllRecipes`. The three optional filters are applied step by step,
  then the optional sort by rating, cooking time, servings or creation time.
- `RecipeStats`: `getRecipeStats`. It gives the count, the rounded mean cooking time, the
  rounded mean of the per-recipe rating means, and the counts per difficulty. It also
  gives the ten most common normalised ingredients, counted by a loop into a dictionary.
- `Lifecycle`: the class `RecipeStore`, whose field `recipes` is the persisted array.
  - `Get` models `getRecipeById`.
  - `Create`, `Update`, `Rate` and `Delete` model `createRecipe`, `updateRecipe`,
    `updateRating` and `deleteRecipe`.
  - Every lookup is `findIndex` on the id (`IndexOf`). An absent id gives `NotFound`
    and leaves the array as it was.
  - `writeSucceeds` says whether writing the file succeeds. When it fails, the caller
    gets the operation's own 500 message and the stored array is unchanged.
- `ErrorHandler`: `errorHandler`, which maps a thrown error to the `{error, message,
  statusCode}` body, and `notFoundHandler`.

Parameters stand in for the things the source takes from its environment:

- the generated id (`uuidv4`): a string no stored recipe carries;
- the clock (`new Date()`): an integer timestamp;
- the file the collection lives in: the store's field, or the snapshot passed to the
  list and statistics methods.

Absent values use stand-ins:

- A query parameter, error field or message that is absent or empty is `""`. JavaScript
  treats both as false.
- An absent `statusCode` is `0`.
- A missing `ratings` array is `None`. Every reader treats it as empty.

## Model

| member | source | states |
|---|---|---|
| RecipeModel.RoundToIsNearest | src/controllers/recipes.controller.js:152 | `Math.round(x * s) / s` lies within half a step `0.5 / s` of `x` |
| Text.Lower | src/controllers/recipes.controller.js:26-30 | lower-casing keeps the length and maps every character through the ASCII lower-case map |
| Text.LowerIdempotent | src/controllers/recipes.controller.js:26-30 | lower-casing an already lower-cased string changes nothing |
| Text.Trim | src/controllers/recipes.controller.js:235 | the trimmed string is the slice of the input that neither starts nor ends with white space, and only white space is cut on either side |
| Text.NormalizeShape | src/controllers/recipes.controller.js:235 | a normalised ingredient has no upper-case letter and no white space at either end |
| Text.NormalizeIdempotent | src/controllers/recipes.controller.js:235 | normalising a normalised ingredient changes nothing |
| Text.NormalizeIgnoresCase | src/controllers/recipes.controller.js:235 | ingredients that differ only in letter case normalise to the same key |
| Sorting.SortByPermutes | src/controllers/recipes.controller.js:39-52 | the sorted list is a permutation of its input |
| Sorting.SortByOrdered | src/controllers/recipes.controller.js:39-52 | every earlier element compares at most 0 against every later one under the signed comparator |
| Sorting.SortByStable | src/controllers/recipes.controller.js:39-52 | for every key value, the elements with that key are in input order |
| Sorting.SortByConstantKey | src/controllers/recipes.controller.js:51 | when the comparator gives every pair 0, the list keeps its order |
| Sorting.InsertStable | src/controllers/recipes.controller.js:39-52 | inserting into an ordered list places the new element after every element with its key |
| RecipeQuery.FilteredSpec | src/controllers/recipes.controller.js:7-32 | the filtered list is an order-preserving subsequence; every element meets every supplied criterion; each matching recipe appears as often as in the collection, a non-matching one never |
| RecipeQuery.FilteredNoFilter | src/controllers/recipes.controller.js:7-32 | with no filter parameter the collection passes through unchanged and in order |
| RecipeQuery.KeepNarrows | src/controllers/recipes.controller.js:11-31 | one `filter` step on the list filtered by a query gives the list filtered by the query with that criterion added |
| RecipeQuery.SearchIgnoresCase | src/controllers/recipes.controller.js:26-30 | the search matches the same recipes whatever the case of the term |
| RecipeQuery.ListRecipes | src/controllers/recipes.controller.js:4-55 | the result is a permutation of the matching recipes. Without `sort` it is those recipes in collection order. With `sort` it is ordered by the field's key (the raw ratings mean, 0 when empty; cookingTime; servings; createdAt), descending only when `order=desc`, and recipes with equal keys keep their order. An unknown sort field, and a request with neither filters nor a known sort, leave the order, or the whole collection, unchanged |
| RecipeStats.CountByDifficultySpec | src/controllers/recipes.controller.js:226-229 | each difficulty's count is the number of recipes with that difficulty, and the three counts add up to the collection size |
| RecipeStats.MeanCookingTimeBounds | src/controllers/recipes.controller.js:214 | the mean cooking time lies between any lower and upper bound of the cooking times |
| RecipeStats.DedupeSpec | src/controllers/recipes.controller.js:240 | the dictionary's key order holds each counted name exactly once, and nothing else |
| RecipeStats.Increment | src/controllers/recipes.controller.js:236 | one dictionary update keeps the invariant. The keys are the distinct names so far in first-seen order, and each count is the number of occurrences so far |
| RecipeStats.CountList | src/controllers/recipes.controller.js:234-237 | counting one recipe's ingredients extends that invariant by the normalised list |
| RecipeStats.CountIngredients | src/controllers/recipes.controller.js:232-238 | the dictionary's keys are exactly the normalised ingredients, in first-seen order, and each count is that ingredient's number of occurrences across all lists |
| RecipeStats.TopIngredientsSpec | src/controllers/recipes.controller.js:240-243 | the top list has at most ten distinct dictionary entries with non-increasing counts. A key left out has a count no larger than the tenth entry's. Entries with equal counts keep dictionary order |
| RecipeStats.GetRecipeStats | src/controllers/recipes.controller.js:195-251 | an empty collection gives all zeros and `[]`. Otherwise the total is the collection size, and both averages are the means rounded to two decimals. The difficulty counts are exact and add up to the total. The ingredient list has at most ten entries, sorted by non-increasing exact occurrence count, with no repeats. It misses no more frequent ingredient, and ties keep first-seen order |
| Lifecycle.IndexOf | src/controllers/recipes.controller.js:108 | None exactly when no recipe has the id; otherwise the first index holding it |
| Lifecycle.RecipeStore.Get | src/controllers/recipes.controller.js:61-75 | NotFound exactly when the id is absent; otherwise the first recipe with that id |
| Lifecycle.RecipeStore.Create | src/controllers/recipes.controller.js:85-100 | on a successful write, exactly one recipe is appended. It has the fresh id, the body's fields, `ratings = []`, the creation time, and no rating or update time. A failed write gives 500 'Error creating recipe' and no change. Unique ids, valid records and current ratings are kept |
| Lifecycle.RecipeStore.Update | src/controllers/recipes.controller.js:103-131 | an absent id gives NotFound with no change, and a failed write gives 500 with no change. Otherwise only the found index is replaced: the body's fields override, id, createdAt and ratings are kept, and updatedAt is set. The length and all other indices are unchanged |
| Lifecycle.RecipeStore.Rate | src/controllers/recipes.controller.js:135-158 | an absent id gives NotFound with no change. Otherwise the value is appended to the ratings (a missing list is read as empty), and rating becomes the ratings mean rounded to one decimal. No other field or recipe changes, and the answer is the stored rating. A failed write gives 500 'Error updating rating' with no change |
| Lifecycle.RecipeStore.Delete | src/controllers/recipes.controller.js:168-185 | an absent id gives NotFound with no change. Otherwise exactly the found element is removed and the others keep their order; with unique ids the id is gone afterwards. A failed write gives 500 'Error deleting recipe' with no change |
| Lifecycle.AppendKeepsIdsUnique | src/controllers/recipes.controller.js:87-94 | appending a recipe with an unused id keeps ids unique |
| Lifecycle.RemoveDropsId | src/controllers/recipes.controller.js:182 | removing an element keeps ids unique, drops its id, and keeps every other id |
| Lifecycle.RemoveKeepsOthers | src/controllers/recipes.controller.js:182 | `splice(i, 1)` shifts the later elements down by one. Validity and current ratings of the remaining records are kept |
| Lifecycle.RatedIsNearMean | src/controllers/recipes.controller.js:150-152 | the stored rating is within 0.05 of the mean of the ratings |
| Lifecycle.UpdateAsWritten | src/controllers/recipes.controller.js:103-131 | as written, an update never succeeds: NotFound exactly when the id is absent, 500 otherwise |
| Lifecycle.UpdateAsWrittenRejectsStoredIds | src/controllers/recipes.controller.js:113-121 | every stored recipe's update fails with 500 as written, while the intended revision keeps its ratings |
| ErrorHandler.HandleError | src/middlewares/errorHandler.js:1-40 | the response always has `error: true`. ValidationError gives 400 with the error's message. CastError gives 400 'Invalid ID format'. Otherwise ENOENT gives 500 'File not found'. Otherwise the status is 500, with the error's message or 'Internal Server Error'. A non-zero `statusCode` on the error overrides every branch's status |
| ErrorHandler.RouteNotFound | src/middlewares/errorHandler.js:43-48 | always 404 with the message `Route <url> not found` |
| ErrorHandler.RouteNotFoundNamesRoute | src/middlewares/errorHandler.js:43-48 | the 404 message determines the URL it reports |

## Left out

- File I/O is not modelled. The loader returns `[]` for a missing or unparseable file (src/models/recipes.model.js:6-18). A failed write throws (src/models/recipes.model.js:20-27) and reaches each operation's catch block; that is the `writeSucceeds` parameter. The read failing outright inside an operation is not modelled.
- Concurrency is not modelled. Requests interleave their read-modify-write cycles without a lock, and the model runs one operation at a time.
- The id generator and the clock are parameters. `Create` requires that its id is not yet stored, which is what a fresh UUID provides. Timestamps are integers, so ISO strings and `new Date` parsing are not modelled.
- Floating point is not modelled. Cooking times, ratings and means are exact reals, with no IEEE rounding error and no NaN. `Math.round` is round half up on reals.
- `parseInt` of `maxCookingTime` is not modelled; the query carries it already parsed. An unparseable value (NaN, which makes the source's filter drop everything) is not modelled.
- `toLowerCase` covers ASCII letters only. `trim` uses the JavaScript white-space set.
- Integer-like ingredient names are not modelled specially. `Object.entries` lists them before the other keys in ascending numeric order, but the model keeps insertion order for all keys.
- Collisions with inherited object keys are not modelled: an ingredient named `constructor` or `__proto__` in the counting dictionary, or a difficulty field holding such a name.
- Malformed stored records (a difficulty outside easy/medium/hard, non-numeric fields, a missing ingredient list) are excluded by the record's types.
- Request bodies are typed records with the schema's seven fields. Create and update spread any extra body fields into the record; that is not modelled. `ValidInput` is not a precondition, because only the create route runs the validator and update has none. Instead, validity of the stored records is proved preserved whenever the body is valid.
- Lifecycle.RecipeStore.Rate takes the rating as a number. A non-numeric body value (string concatenation in the `reduce`) is not modelled.
- In-place aliasing is not modelled. `getAllRecipes` sorts the collection itself when no filter ran, and `updateRating` mutates the record object inside the array it read. Both act on a fresh copy read from the file, so only values are modelled.
- The HTTP side is not modelled: `res.status().json` calls, the status codes 200/201/204, the `{message, newRating}` envelope, the catch blocks for errors other than a failed write, and `console` logging.
- Routing is not modelled. Only list and create have routes (src/routes/recipes.routes.js:7-10); the other operations are modelled as functions of the controller.
- Lifecycle.RecipeStore.Update models the intended update, not the code as written; see Findings.

## Findings

| source | as written | input that shows it | evidently intended | confidence | as-written member | corrected member |
|---|---|---|---|---|---|---|
| src/controllers/recipes.controller.js:117 | the updated record takes `ratings: existingRatings`, a name declared nowhere; evaluating it throws, so the catch answers 500 'Error updating recipe' and nothing is written | any update of an id that is stored, e.g. a collection holding a recipe with id "1" and an update of "1" | keep the previous record's `ratings` (`recipes[recipeIndex].ratings`) | not executed | Lifecycle.UpdateAsWritten | Lifecycle.RecipeStore.Update |
