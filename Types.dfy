/**
 * The data shapes of the recipe manager: the Recipe and Ingredient records exchanged
 * with clients, and the RecipeEntity / IngredientEntity shapes persisted in the
 * document store.
 */
module Types {
  import opened Wrappers

  /** Java's 32-bit `int`; only copied and compared here, never computed with. */
  newtype Int32 = x: int | -0x8000_0000 <= x < 0x8000_0000

  /** An ingredient as clients see it: a name and a quantity. */
  datatype Ingredient = Ingredient(name: Option<string>, quantity: Int32)

  /** A recipe as clients see it. Every reference-typed component may be null. */
  datatype Recipe = Recipe(
    id: Option<string>,
    name: Option<string>,
    ingredients: Option<seq<Ingredient>>,
    servings: Int32,
    instructions: Option<string>,
    isVegetarian: Option<string>)

  /** An ingredient as it is embedded in a stored recipe document. */
  datatype IngredientEntity = IngredientEntity(name: Option<string>, quantity: Int32)

  /** The stored recipe document: the value of a RecipeEntity's fields at one moment. */
  datatype EntityDoc = EntityDoc(
    id: Option<string>,
    recipeName: Option<string>,
    servings: Int32,
    ingredients: Option<seq<IngredientEntity>>,
    instructions: Option<string>,
    isVegetarian: Option<string>)

  /**
   * A recipe entity object, whose fields are updated in place through its setters.
   * `recipeName` carries the store's unique index.
   */
  class RecipeEntity {
    var id: Option<string>
    var recipeName: Option<string>
    var servings: Int32
    var ingredients: Option<seq<IngredientEntity>>
    var instructions: Option<string>
    var isVegetarian: Option<string>

    /** The document this object stands for. */
    function Doc(): EntityDoc
      reads this
    {
      EntityDoc(id, recipeName, servings, ingredients, instructions, isVegetarian)
    }

    /** The all-arguments constructor, given the arguments as one document. */
    constructor (d: EntityDoc)
      ensures Doc() == d
    {
      id := d.id;
      recipeName := d.recipeName;
      servings := d.servings;
      ingredients := d.ingredients;
      instructions := d.instructions;
      isVegetarian := d.isVegetarian;
    }
  }
}
