# RecipeManager service core in Dafny

This project models the service layer of RecipeManager, a small recipe store kept in a
document database. The model covers:

- the record mappers between the API record `Recipe` and the stored `RecipeEntity`;
- the translation of a filter map (field name to string value) into a store query;
- the facade operations over the store: add, list, get by name, delete by name, list
  by filter, and partial update.

Modules:

- `Wrappers`: `Option`, `Result` and `Outcome`.
- `Types`: the records. `Ingredient` and `Recipe` are the API values. `IngredientEntity`
  and the `EntityDoc` value describe a stored document. `RecipeEntity` is a class with
  mutable fields, whose `Doc()` is its current document.
- `RecipeUtil`: the four mappers, their length, order and element properties, and the
  round trips between them.
- `Criteria`: `GetCriteria`, `KeyCriteria` and `CreateMongoQuery` build a query value
  `Cond`. An evaluator `Eval` gives each query its meaning on a document, following the
  document store's rules:
  - not-equal also matches a missing field;
  - on an array of names, equality means some element is equal;
  - an integer never equals a string field.
  The lemmas state what each kind of filter entry selects. They also show that the
  query does not depend on the order the map's entries are visited in.
- `Service`: the merge rules of the partial update and the `RecipeService` class. Its
  `docs` field maps a recipe name to the stored document, which models the unique
  index on `recipeName`. The facade methods read and reassign that field.
- `Scenarios`: client-level consequences of the contracts. The add, get, delete and
  update scenarios hold for any recipes of the shape the tests use. The filter
  scenarios use the three recipes of the integration tests.

Two behaviours of the code are easy to miss:

- A filter value starting with `!` is compared against the value with every `!`
  removed. The code uses a replace, not a strip of the prefix (see
  `Criteria.BangsRemovedEverywhere`).
- `getRecipe`, `deleteRecipe` and `updateRecipe` look a name up through the same filter
  translator as the filter endpoint. So a name made of one digit never matches any
  document, and a name starting with `!` selects the documents whose name differs.
  Both are proved as lemmas and scenarios.

## Model

| member | source | states |
|---|---|---|
| Criteria.GetCriteria | src/main/java/com/assignment/amit/recipemanager/service/RecipeService.java:95-100 | the condition is an integer equality, a string equality or a not-equal on the given key; an integer compared is a digit 0..9; a not-equal value contains no `!` |
| Criteria.KeyCriteria | src/main/java/com/assignment/amit/recipemanager/service/RecipeService.java:109-117 | an entry becomes a pattern match exactly when its key is `instructions`, with the value as the pattern; every other entry is a condition on the key itself or on `ingredients.name` |
| Criteria.GetCriteriaOperator | src/main/java/com/assignment/amit/recipemanager/service/RecipeService.java:95-100 | a single digit gives integer equality against that digit's value, a leading `!` gives not-equal against the value without `!`, anything else (multi-digit numbers included) gives string equality; the path is always the key |
| Criteria.KeyCriteriaDispatch | src/main/java/com/assignment/amit/recipemanager/service/RecipeService.java:109-117 | `instructions` and only it becomes a pattern match on the instructions; other keys containing `ingredient` target `ingredients.name`; every other key is its own field path |
| Criteria.BangsRemovedEverywhere | src/main/java/com/assignment/amit/recipemanager/service/RecipeService.java:99 | `!a!b` is compared against `ab`, not against the prefix-stripped `a!b` |
| Criteria.RemoveBangs | src/main/java/com/assignment/amit/recipemanager/service/RecipeService.java:99 | the replaced value holds no `!` |
| Criteria.RemoveBangsMultiset | src/main/java/com/assignment/amit/recipemanager/service/RecipeService.java:99 | the replace removes exactly the `!` characters and keeps every other character |
| Criteria.RemoveBangsIdentity | src/main/java/com/assignment/amit/recipemanager/service/RecipeService.java:99 | a value without `!` is unchanged by the replace |
| Criteria.RemoveBangsConcat | src/main/java/com/assignment/amit/recipemanager/service/RecipeService.java:99 | the replace distributes over concatenation, so inner `!`s go too |
| Criteria.DigitValue | src/main/java/com/assignment/amit/recipemanager/service/RecipeService.java:96-97 | the parsed single digit lies in 0..9 |
| Criteria.CreateMongoQuery | src/main/java/com/assignment/amit/recipemanager/service/RecipeService.java:108-123 | the empty filter gives match-all and only it does; otherwise a conjunction with one conjunct per entry, the i-th being the entry's criterion in visiting order |
| Criteria.ConjunctsAt | src/main/java/com/assignment/amit/recipemanager/service/RecipeService.java:109-117 | each conjunct is the criterion of the entry at the same position |
| Criteria.DistinctCardinality | src/main/java/com/assignment/amit/recipemanager/service/RecipeService.java:109 | visiting every entry once makes as many conjuncts as entries |
| Criteria.QueryMeaning | src/main/java/com/assignment/amit/recipemanager/service/RecipeService.java:108-123 | a document satisfies the query exactly when it satisfies every entry's criterion |
| Criteria.QueryOrderIndependent | src/main/java/com/assignment/amit/recipemanager/service/RecipeService.java:109-121 | two visiting orders of the same map give the same query shape, the same multiset of conjuncts and the same answer on every document |
| Criteria.ConjunctsPermutation | src/main/java/com/assignment/amit/recipemanager/service/RecipeService.java:109-117 | permuting the entries permutes the conjuncts |
| Criteria.IngredientFilterMeaning | src/main/java/com/assignment/amit/recipemanager/service/RecipeService.java:113-114 | an ingredient key with a digit matches nothing; with `!v` it matches when no ingredient has the name v without `!`; otherwise it matches when some ingredient has that name |
| Criteria.InstructionsFilterMeaning | src/main/java/com/assignment/amit/recipemanager/service/RecipeService.java:110-111 | the instructions key matches when the instructions exist and the store's pattern engine accepts them |
| Criteria.StoredKeysAreNotIngredientKeys | src/main/java/com/assignment/amit/recipemanager/service/RecipeService.java:113 | the other stored field names never take the ingredient branch |
| Criteria.StringFieldFilterMeaning | src/main/java/com/assignment/amit/recipemanager/service/RecipeService.java:95-100 | on id (also addressed as `_id`), the `_class` type hint, recipeName and isVegetarian, a digit matches nothing, `!v` matches a different or missing value, a plain value matches an equal value |
| Criteria.ServingsFilterMeaning | src/main/java/com/assignment/amit/recipemanager/service/RecipeService.java:95-100 | on servings a digit compares the count, `!v` always matches, any other value (a multi-digit count too) matches nothing |
| Criteria.UnknownKeyFilterMeaning | src/main/java/com/assignment/amit/recipemanager/service/RecipeService.java:116 | a key naming no stored field (the id's `_id` and the `_class` type hint count as stored) and not starting with `$` matches only with a `!` value |
| Criteria.IngredientNames | src/main/java/com/assignment/amit/recipemanager/entity/RecipeEntity.java:21 | the `ingredients.name` path lists each ingredient's name, in order |
| Criteria.IngredientNamesMember | src/main/java/com/assignment/amit/recipemanager/entity/IngredientEntity.java:12 | a name is on that path exactly when some ingredient has it |
| RecipeUtil.MapToIngredientsEntity | src/main/java/com/assignment/amit/recipemanager/util/RecipeUtil.java:19-24 | same length; each entity copies the name and quantity of the ingredient at the same position |
| RecipeUtil.MapToIngredients | src/main/java/com/assignment/amit/recipemanager/util/RecipeUtil.java:26-30 | same length; each ingredient copies the name and quantity of the entity at the same position |
| RecipeUtil.MapToRecipeEntity | src/main/java/com/assignment/amit/recipemanager/util/RecipeUtil.java:11-17 | requires a non-null ingredient list; copies id, name, servings, instructions and isVegetarian, and the ingredient list is the recipe's list mapped by MapToIngredientsEntity |
| RecipeUtil.MapToRecipe | src/main/java/com/assignment/amit/recipemanager/util/RecipeUtil.java:32-36 | requires a non-null ingredient list; copies every field back, and the ingredient list is the document's list mapped by MapToIngredients |
| RecipeUtil.IngredientsRoundTrip | src/main/java/com/assignment/amit/recipemanager/util/RecipeUtil.java:19-30 | mapping ingredients to entities and back gives the same list |
| RecipeUtil.IngredientEntitiesRoundTrip | src/main/java/com/assignment/amit/recipemanager/util/RecipeUtil.java:19-30 | mapping entities to ingredients and back gives the same list |
| RecipeUtil.RecipeRoundTrip | src/main/java/com/assignment/amit/recipemanager/util/RecipeUtil.java:11-36 | a recipe mapped to an entity and back is the same recipe |
| RecipeUtil.EntityRoundTrip | src/main/java/com/assignment/amit/recipemanager/util/RecipeUtil.java:11-36 | a document mapped to a recipe and back is the same document |
| RecipeUtil.MapAllToRecipes | src/main/java/com/assignment/amit/recipemanager/service/RecipeService.java:49 | a list of documents maps element by element, in order |
| Service.IsWhitespace | src/main/java/com/assignment/amit/recipemanager/service/RecipeService.java:164 | the whitespace characters are ASCII and not NUL; space, tab, newline and carriage return are whitespace |
| Service.IsBlank | src/main/java/com/assignment/amit/recipemanager/service/RecipeService.java:164 | the empty string is blank, and every character of a blank string is whitespace |
| Service.IsNotNullOrNotEmpty | src/main/java/com/assignment/amit/recipemanager/service/RecipeService.java:163-165 | a supplied string is non-null and non-empty |
| Service.NotNullOrNotEmptyCases | src/main/java/com/assignment/amit/recipemanager/service/RecipeService.java:163-165 | a string is supplied exactly when it is non-null and has a character that is not whitespace; null and the empty string are not supplied |
| Service.Merged | src/main/java/com/assignment/amit/recipemanager/service/RecipeService.java:144-161 | the merge never changes the id; the name is the old one or the received one; the list is non-null when either side's is; servings change only for a positive count |
| Service.MergeFieldRules | src/main/java/com/assignment/amit/recipemanager/service/RecipeService.java:144-161 | name, isVegetarian and instructions take the received value exactly when it is non-null and not blank and keep the old one otherwise; servings take a positive count and are kept otherwise; a non-null list replaces the old one mapped, a null one keeps it; the id is kept |
| Service.MergeReplacesIngredients | src/main/java/com/assignment/amit/recipemanager/service/RecipeService.java:157-160 | a supplied ingredient list replaces the old one wholesale and reads back as exactly that list |
| Service.MergeNoOp | src/main/java/com/assignment/amit/recipemanager/service/RecipeService.java:144-161 | an update supplying nothing (blank or null strings, servings at most 0, null list) leaves the document as it was |
| Service.MergeIdempotent | src/main/java/com/assignment/amit/recipemanager/service/RecipeService.java:144-161 | applying the same update twice equals applying it once |
| Service.MergeFullRecipe | src/main/java/com/assignment/amit/recipemanager/service/RecipeService.java:144-161 | an update supplying every field reads back as the received recipe with the stored id |
| Service.ByNameQuery | src/main/java/com/assignment/amit/recipemanager/service/RecipeService.java:59 | the by-name lookup is a one-conjunct query whose conjunct is the value-chosen condition on `recipeName` (the key takes neither the instructions nor the ingredient branch) |
| Service.ByNameQueryMeaning | src/main/java/com/assignment/amit/recipemanager/service/RecipeService.java:59 | the by-name lookup matches the document of that name for a plain name, documents of another name for `!name`, and nothing for a one-digit name |
| Service.RecipeService.constructor | src/main/java/com/assignment/amit/recipemanager/service/RecipeService.java:24-25 | a service over an empty store |
| Service.RecipeService.FindOne | src/main/java/com/assignment/amit/recipemanager/service/RecipeService.java:59 | returns a stored document satisfying the query, and nothing exactly when none does |
| Service.RecipeService.Find | src/main/java/com/assignment/amit/recipemanager/service/RecipeService.java:88 | returns each stored document satisfying the query exactly once, and only those |
| Service.RecipeService.AddRecipe | src/main/java/com/assignment/amit/recipemanager/service/RecipeService.java:33-41 | fails with AlreadyExists exactly when the name is stored, leaving the store unchanged; otherwise stores the mapped document and returns a recipe equal to the input |
| Service.RecipeService.GetAllRecipes | src/main/java/com/assignment/amit/recipemanager/service/RecipeService.java:48-50 | lists every stored recipe once, each as its stored document maps |
| Service.RecipeService.GetRecipe | src/main/java/com/assignment/amit/recipemanager/service/RecipeService.java:58-64 | NotFound exactly when no document matches the by-name lookup, else a matching document's recipe; for a plain name, the recipe stored under it |
| Service.RecipeService.Remove | src/main/java/com/assignment/amit/recipemanager/service/RecipeService.java:76-77 | removes the document's entry; a second removal of the same document changes nothing |
| Service.RecipeService.DeleteRecipe | src/main/java/com/assignment/amit/recipemanager/service/RecipeService.java:71-79 | NotFound with the store unchanged exactly when nothing matches; otherwise exactly one matching document is gone; for a plain name, succeeds exactly when it is stored and removes only it |
| Service.RecipeService.GetAllRecipesWithFiler | src/main/java/com/assignment/amit/recipemanager/service/RecipeService.java:87-90 | returns the stored recipes satisfying every filter entry, each once, and all of them |
| Service.RecipeService.UpdateEntity | src/main/java/com/assignment/amit/recipemanager/service/RecipeService.java:144-161 | the entity's fields become the merge of the old fields and the received recipe; the id is untouched |
| Service.RecipeService.UpdateRecipe | src/main/java/com/assignment/amit/recipemanager/service/RecipeService.java:132-139 | NotFound with the store unchanged exactly when nothing matches; otherwise, for a matched document, a rename onto another stored name gives Internal with the store unchanged, and anything else replaces that document by its merge and returns the merged recipe; for a plain name the matched document is the one of that name; an update supplying nothing leaves the store unchanged for any name |
| Scenarios.AddThenGet | src/test/java/com/assignment/amit/recipemanager/service/RecipeServiceTest.java:30-68 | an added recipe is returned unchanged and then found by its name |
| Scenarios.AddTwice | src/main/java/com/assignment/amit/recipemanager/entity/RecipeEntity.java:18-19 | a second add of the same name fails with AlreadyExists and the first stays |
| Scenarios.DeleteThenList | src/test/java/com/assignment/amit/recipemanager/RecipeManagerITTest.java:305-357 | after a delete only the other recipe is listed and the deleted name is not found |
| Scenarios.UpdateServings | src/test/java/com/assignment/amit/recipemanager/RecipeManagerITTest.java:235-283 | updating only the servings returns, and reads back, the recipe with the new servings |
| Scenarios.DigitNameIsNeverFound | src/main/java/com/assignment/amit/recipemanager/service/RecipeService.java:58-64 | a recipe named with a single digit is stored but never found by its name |
| Scenarios.BangNameDeletesAnother | src/main/java/com/assignment/amit/recipemanager/service/RecipeService.java:71-79 | deleting `!x` removes a stored recipe whose name is not x |
| Scenarios.IdFilterMeaning | src/main/java/com/assignment/amit/recipemanager/entity/RecipeEntity.java:16-17 | a filter on the store's id field `_id` selects the document with that id |
| Scenarios.NonVegetarianScenario | src/test/java/com/assignment/amit/recipemanager/RecipeManagerITTest.java:109-148 | isVegetarian=false keeps the two chicken recipes and drops the paneer one |
| Scenarios.NoChickenQueryMeaning | src/test/java/com/assignment/amit/recipemanager/RecipeManagerITTest.java:151-190 | ingredient=!Chicken holds exactly when no ingredient is named Chicken |
| Scenarios.NoChickenScenario | src/test/java/com/assignment/amit/recipemanager/RecipeManagerITTest.java:151-190 | ingredient=!Chicken keeps only the paneer recipe |
| Scenarios.ChickenInOvenQueryMeaning | src/test/java/com/assignment/amit/recipemanager/RecipeManagerITTest.java:193-233 | ingredient=Chicken with instructions=oven* holds exactly when some ingredient is Chicken and the pattern accepts the instructions |
| Scenarios.ChickenInOvenScenario | src/test/java/com/assignment/amit/recipemanager/RecipeManagerITTest.java:193-233 | given a pattern engine that accepts ChickenTikka's instructions and rejects ChickenCurry's, only ChickenTikka is kept |

## Left out

- The HTTP controller, the exception classes and their mapping to status codes. The
  domain errors are `Error` values: `AlreadyExists`, `NotFound` and `Internal`.
- The repository interface, index creation and the test infrastructure.
- The document store is an in-memory map. The following store behaviour is not modelled:
  - generating ids on insert (a recipe's id is stored as given);
  - the upsert by id;
  - the store's own order of results.
  `FindOne` may return any match and `Find` may list matches in any order.
- MapToIngredientsEntity, AddRecipe and UpdateRecipe: an ingredient list never holds a
  null element in the model. In the source a null element makes the mapper fail with a
  null-pointer error before anything is saved, both on add and inside the merge of an
  update, and the controller answers 500 with the store unchanged. That failure is not
  represented: the model's update returns Ok and replaces the document.
- AddRecipe: requires a non-null ingredient list. With a null list the mapper fails
  with a null-pointer error before anything is saved, and the controller answers 500.
  The model does not give that failure a value.
- AddRecipe: every add is an insert. A recipe carrying the id of a stored document with
  the same name would be replaced by the store; the model reports AlreadyExists instead.
- UpdateRecipe: renaming onto a name another document holds raises the store's
  duplicate-key error, which the service does not catch. The model returns `Internal`
  with the store unchanged.
- Regular-expression semantics: the store's pattern engine is the parameter
  `regexMatch(pattern, subject)` of the service.
- The filter map's iteration order is the parameter `keys`, which must list every key
  once. `Criteria.QueryOrderIndependent` shows that the order does not change the
  query's meaning.
- Service.IsWhitespace covers the ASCII characters that Java's `Character.isWhitespace`
  accepts. The Unicode space separators are left out because the model has no Unicode
  character classes.
- `Int32` bounds the integer fields. Nothing in the core does arithmetic on them, so no
  wrap-around arises.
- `Ingredient` is a name and a quantity, as `RecipeUtil.java` and `TestUtil.java` build it.
- The merge reads the incoming name through an accessor named after the entity field.
  The record's component is `name`, and the model uses that single field.
- Criteria.FieldAt: stored document fields the store writes on its own besides `_id` and
  `_class` are not modelled; a path naming none of the modelled fields is absent. Keys
  starting with `$`, which the store reads as query operators (`$where`, `$expr`,
  `$nor`), are not modelled. `regexMatch`
  is total: an invalid `instructions` pattern, which the store rejects with an error,
  is not modelled either.
- Criteria.UnknownKeyFilterMeaning: says nothing about keys starting with `$`, because
  the model has no query operators.
- Concurrency between requests and logging.
