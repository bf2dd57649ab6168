/**
 * Client scenarios over the service, following the unit and integration tests: what
 * a caller can conclude from the service's contracts alone.
 */
module Scenarios {
  import opened Wrappers
  import opened Types
  import opened RecipeUtil
  import opened Criteria
  import opened Service

  const Coriander := Ingredient(Some("Coriander"), 2)
  const Paneer := Ingredient(Some("Paneer"), 2)
  const Chicken := Ingredient(Some("Chicken"), 5)

  const PaneerLababdar :=
    Recipe(None, Some("PaneerLababdar"), Some([Coriander, Paneer]), 5, Some("Start with frying "), Some("true"))
  const ChickenTikka :=
    Recipe(None, Some("ChickenTikka"), Some([Coriander, Chicken]), 4, Some("Marinate and put in the oven"), Some("false"))
  const ChickenCurry :=
    Recipe(None, Some("ChickenCurry"), Some([Coriander, Chicken]), 4, Some("Marinate and Boil for 1 hours"), Some("false"))

  /** The names of a list of recipes. */
  function Names(rs: seq<Recipe>): set<Option<string>> {
    set i | 0 <= i < |rs| :: rs[i].name
  }

  /** A recipe with a plain name, once added, is found by name and equals the input. */
  method AddThenGet(rx: (string, string) -> bool, recipe: Recipe) returns (added: Result<Recipe, Error>, got: Result<Recipe, Error>)
    requires recipe.ingredients.Some? && recipe.name.Some? && IsPlainValue(recipe.name.value)
    ensures added == Ok(recipe) && got == Ok(recipe)
  {
    var s := new RecipeService(rx);
    added := s.AddRecipe(recipe);
    got := s.GetRecipe(recipe.name.value);
    RecipeRoundTrip(recipe);
  }

  /** Adding a second recipe of the same name fails and leaves the first one stored. */
  method AddTwice(rx: (string, string) -> bool, first: Recipe, second: Recipe) returns (again: Result<Recipe, Error>, got: Result<Recipe, Error>)
    requires first.ingredients.Some? && second.ingredients.Some?
    requires first.name == second.name && first.name.Some? && IsPlainValue(first.name.value)
    ensures again == Err(AlreadyExists) && got == Ok(first)
  {
    var s := new RecipeService(rx);
    var added := s.AddRecipe(first);
    again := s.AddRecipe(second);
    got := s.GetRecipe(first.name.value);
    RecipeRoundTrip(first);
  }

  /**
   * Of two stored recipes with plain names, deleting the first leaves only the second
   * listed, and the first is no longer found by name.
   */
  method DeleteThenList(rx: (string, string) -> bool, a: Recipe, b: Recipe) returns (names: set<Option<string>>, got: Result<Recipe, Error>)
    requires a.ingredients.Some? && b.ingredients.Some? && a.name != b.name
    requires a.name.Some? && IsPlainValue(a.name.value)
    ensures names == {b.name} && got == Err(NotFound)
  {
    var s := new RecipeService(rx);
    var addedA := s.AddRecipe(a);
    var addedB := s.AddRecipe(b);
    var deleted := s.DeleteRecipe(a.name.value);
    assert s.docs.Keys == {b.name};
    var rs := s.GetAllRecipes();
    names := Names(rs);
    got := s.GetRecipe(a.name.value);
    assert MapToRecipe(s.docs[b.name]) in rs;
  }

  /** Updating only the servings of a stored recipe is read back by name; nothing else changes. */
  method UpdateServings(rx: (string, string) -> bool, recipe: Recipe, servings: Int32) returns (updated: Result<Recipe, Error>, got: Result<Recipe, Error>)
    requires recipe.ingredients.Some? && recipe.name.Some? && IsPlainValue(recipe.name.value)
    requires servings > 0
    ensures updated == Ok(recipe.(servings := servings)) && got == updated
  {
    var s := new RecipeService(rx);
    var added := s.AddRecipe(recipe);
    var received := Recipe(None, None, None, servings, None, None);
    updated := s.UpdateRecipe(recipe.name.value, received);
    got := s.GetRecipe(recipe.name.value);
    RecipeRoundTrip(recipe);
    RecipeRoundTrip(recipe.(servings := servings));
  }

  /**
   * Because the by-name lookup goes through the filter translator, a recipe named with
   * a single digit can be stored but never found again by its name.
   */
  method DigitNameIsNeverFound(rx: (string, string) -> bool, recipe: Recipe) returns (added: Result<Recipe, Error>, got: Result<Recipe, Error>)
    requires recipe.ingredients.Some? && recipe.name.Some? && IsSingleDigit(recipe.name.value)
    ensures added == Ok(recipe) && got == Err(NotFound)
  {
    var s := new RecipeService(rx);
    added := s.AddRecipe(recipe);
    got := s.GetRecipe(recipe.name.value);
    ByNameQueryMeaning(recipe.name.value, s.docs[recipe.name], rx);
  }

  /**
   * Likewise a name starting with `!` is a negation: deleting such a name from a store
   * that holds one recipe of another name (once the `!`s are removed) deletes that recipe.
   */
  method BangNameDeletesAnother(rx: (string, string) -> bool, stored: Recipe, name: string) returns (deleted: Outcome<Error>, left: map<Option<string>, EntityDoc>)
    requires stored.ingredients.Some? && StartsWithBang(name) && stored.name != Some(RemoveBangs(name))
    ensures deleted == Pass && left == map[]
  {
    var s := new RecipeService(rx);
    var added := s.AddRecipe(stored);
    ByNameQueryMeaning(name, s.docs[stored.name], rx);
    ghost var before := s.docs;
    deleted := s.DeleteRecipe(name);
    assert stored.name in before && Eval(ByNameQuery(name), before[stored.name], rx);
    left := s.docs;
    assert left.Keys == {};
    assert left == map[];
  }

  // ---------------------------------------------------------------------------
  // The filters of the integration tests, on the three documents they store
  // ---------------------------------------------------------------------------

  const PaneerDoc := MapToRecipeEntity(PaneerLababdar)
  const TikkaDoc := MapToRecipeEntity(ChickenTikka)
  const CurryDoc := MapToRecipeEntity(ChickenCurry)

  /** A filter on the store's own id field `_id` selects the document with that id. */
  lemma IdFilterMeaning(d: EntityDoc, rx: (string, string) -> bool)
    ensures Eval(CreateMongoQuery(map["_id" := "abc"], ["_id"]), d, rx) <==> d.id == Some("abc")
  {
    StringFieldFilterMeaning("_id", "abc", d, rx);
    QueryMeaning(map["_id" := "abc"], ["_id"], d, rx);
  }

  /** isVegetarian=false keeps exactly the two chicken recipes. */
  lemma NonVegetarianScenario(rx: (string, string) -> bool)
    ensures var q := CreateMongoQuery(map["isVegetarian" := "false"], ["isVegetarian"]);
      !Eval(q, PaneerDoc, rx) && Eval(q, TikkaDoc, rx) && Eval(q, CurryDoc, rx)
  {
    var filter := map["isVegetarian" := "false"];
    StringFieldFilterMeaning("isVegetarian", "false", PaneerDoc, rx);
    StringFieldFilterMeaning("isVegetarian", "false", TikkaDoc, rx);
    StringFieldFilterMeaning("isVegetarian", "false", CurryDoc, rx);
    QueryMeaning(filter, ["isVegetarian"], PaneerDoc, rx);
    QueryMeaning(filter, ["isVegetarian"], TikkaDoc, rx);
    QueryMeaning(filter, ["isVegetarian"], CurryDoc, rx);
  }

  /** On any document, ingredient=!Chicken holds exactly when no ingredient is named Chicken. */
  lemma NoChickenQueryMeaning(d: EntityDoc, rx: (string, string) -> bool)
    ensures Eval(CreateMongoQuery(map["ingredient" := "!Chicken"], ["ingredient"]), d, rx) <==>
      !HasIngredientNamed(d, "Chicken")
  {
    var filter := map["ingredient" := "!Chicken"];
    var c := KeyCriteria("ingredient", "!Chicken");
    assert ContainsSubstring("ingredient", "ingredient");
    assert StartsWithBang("!Chicken");
    assert RemoveBangs("!Chicken") == "Chicken" by {
      assert "!Chicken"[1..] == "Chicken";
      RemoveBangsIdentity("Chicken");
    }
    IngredientFilterMeaning("ingredient", "!Chicken", d, rx);
    assert Eval(c, d, rx) <==> !HasIngredientNamed(d, "Chicken");
    var q := CreateMongoQuery(filter, ["ingredient"]);
    assert q.And? && |q.conds| == 1 && q.conds[0] == c;
    assert Eval(q, d, rx) <==> Eval(c, d, rx);
  }

  /** ingredient=!Chicken keeps exactly the paneer recipe. */
  lemma NoChickenScenario(rx: (string, string) -> bool)
    ensures var q := CreateMongoQuery(map["ingredient" := "!Chicken"], ["ingredient"]);
      Eval(q, PaneerDoc, rx) && !Eval(q, TikkaDoc, rx) && !Eval(q, CurryDoc, rx)
  {
    NoChickenQueryMeaning(PaneerDoc, rx);
    NoChickenQueryMeaning(TikkaDoc, rx);
    NoChickenQueryMeaning(CurryDoc, rx);
    assert TikkaDoc.ingredients.value[1].name == Some("Chicken");
    assert CurryDoc.ingredients.value[1].name == Some("Chicken");
  }

  /**
   * On any document, ingredient=Chicken and instructions=oven* hold exactly when an
   * ingredient is named Chicken and the pattern matches the instructions.
   */
  lemma ChickenInOvenQueryMeaning(d: EntityDoc, rx: (string, string) -> bool)
    ensures Eval(CreateMongoQuery(map["ingredient" := "Chicken", "instructions" := "oven*"], ["ingredient", "instructions"]), d, rx) <==>
      HasIngredientNamed(d, "Chicken") && d.instructions.Some? && rx("oven*", d.instructions.value)
  {
    var filter := map["ingredient" := "Chicken", "instructions" := "oven*"];
    var keys := ["ingredient", "instructions"];
    assert ContainsSubstring("ingredient", "ingredient");
    assert IsEnumeration(keys, filter);
    IngredientFilterMeaning("ingredient", "Chicken", d, rx);
    InstructionsFilterMeaning("oven*", d, rx);
    QueryMeaning(filter, keys, d, rx);
    assert filter["ingredient"] == "Chicken" && filter["instructions"] == "oven*";
  }

  /**
   * ingredient=Chicken and instructions=oven* keeps exactly ChickenTikka, given a
   * pattern engine that matches the pattern in its instructions and not in ChickenCurry's.
   */
  lemma ChickenInOvenScenario(rx: (string, string) -> bool)
    requires rx("oven*", "Marinate and put in the oven") && !rx("oven*", "Marinate and Boil for 1 hours")
    ensures var q := CreateMongoQuery(map["ingredient" := "Chicken", "instructions" := "oven*"], ["ingredient", "instructions"]);
      !Eval(q, PaneerDoc, rx) && Eval(q, TikkaDoc, rx) && !Eval(q, CurryDoc, rx)
  {
    ChickenInOvenQueryMeaning(PaneerDoc, rx);
    ChickenInOvenQueryMeaning(TikkaDoc, rx);
    ChickenInOvenQueryMeaning(CurryDoc, rx);
    assert TikkaDoc.ingredients.value[1].name == Some("Chicken");
  }
}
