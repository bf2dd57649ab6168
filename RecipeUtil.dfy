/**
 * Element-wise mappings between the client records (Recipe, Ingredient) and the
 * persisted shapes (EntityDoc, IngredientEntity).
 */
module RecipeUtil {
  import opened Wrappers
  import opened Types

  /** Maps each ingredient to an ingredient entity, keeping length and order. */
  function MapToIngredientsEntity(xs: seq<Ingredient>): (r: seq<IngredientEntity>)
    ensures |r| == |xs|
    ensures forall i :: 0 <= i < |xs| ==> r[i].name == xs[i].name && r[i].quantity == xs[i].quantity
  {
    if xs == [] then []
    else [IngredientEntity(xs[0].name, xs[0].quantity)] + MapToIngredientsEntity(xs[1..])
  }

  /** Maps each ingredient entity back to an ingredient, keeping length and order. */
  function MapToIngredients(es: seq<IngredientEntity>): (r: seq<Ingredient>)
    ensures |r| == |es|
    ensures forall i :: 0 <= i < |es| ==> r[i].name == es[i].name && r[i].quantity == es[i].quantity
  {
    if es == [] then []
    else [Ingredient(es[0].name, es[0].quantity)] + MapToIngredients(es[1..])
  }

  /**
   * The entity for a recipe. The ingredient list is streamed without a null check,
   * so it must not be null.
   */
  function MapToRecipeEntity(r: Recipe): (d: EntityDoc)
    requires r.ingredients.Some?
    ensures d.id == r.id && d.recipeName == r.name && d.servings == r.servings
    ensures d.instructions == r.instructions && d.isVegetarian == r.isVegetarian
    ensures d.ingredients == Some(MapToIngredientsEntity(r.ingredients.value))
  {
    EntityDoc(r.id, r.name, r.servings, Some(MapToIngredientsEntity(r.ingredients.value)),
              r.instructions, r.isVegetarian)
  }

  /** The recipe for an entity; its ingredient list must not be null either. */
  function MapToRecipe(d: EntityDoc): (r: Recipe)
    requires d.ingredients.Some?
    ensures r.id == d.id && r.name == d.recipeName && r.servings == d.servings
    ensures r.instructions == d.instructions && r.isVegetarian == d.isVegetarian
    ensures r.ingredients == Some(MapToIngredients(d.ingredients.value))
  {
    Recipe(d.id, d.recipeName, Some(MapToIngredients(d.ingredients.value)), d.servings,
           d.instructions, d.isVegetarian)
  }

  /** Mapping ingredients to entities and back gives the same list. */
  lemma {:induction false} IngredientsRoundTrip(xs: seq<Ingredient>)
    ensures MapToIngredients(MapToIngredientsEntity(xs)) == xs
  {
    if xs != [] {
      IngredientsRoundTrip(xs[1..]);
      assert xs == [xs[0]] + xs[1..];
    }
  }

  /** Mapping ingredient entities to ingredients and back gives the same list. */
  lemma {:induction false} IngredientEntitiesRoundTrip(es: seq<IngredientEntity>)
    ensures MapToIngredientsEntity(MapToIngredients(es)) == es
  {
    if es != [] {
      IngredientEntitiesRoundTrip(es[1..]);
      assert es == [es[0]] + es[1..];
    }
  }

  /** A recipe with a non-null ingredient list survives the trip through its entity. */
  lemma RecipeRoundTrip(r: Recipe)
    requires r.ingredients.Some?
    ensures MapToRecipe(MapToRecipeEntity(r)) == r
  {
    IngredientsRoundTrip(r.ingredients.value);
  }

  /** An entity with a non-null ingredient list survives the trip through its recipe. */
  lemma EntityRoundTrip(d: EntityDoc)
    requires d.ingredients.Some?
    ensures MapToRecipeEntity(MapToRecipe(d)) == d
  {
    IngredientEntitiesRoundTrip(d.ingredients.value);
  }

  /** Maps every document of a query result to its recipe, in order. */
  function MapAllToRecipes(ds: seq<EntityDoc>): (rs: seq<Recipe>)
    requires forall i :: 0 <= i < |ds| ==> ds[i].ingredients.Some?
    ensures |rs| == |ds|
    ensures forall i :: 0 <= i < |ds| ==> rs[i] == MapToRecipe(ds[i])
  {
    if ds == [] then [] else [MapToRecipe(ds[0])] + MapAllToRecipes(ds[1..])
  }
}
