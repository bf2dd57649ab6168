/**
 * The recipe service: the partial-update merge of a stored entity with an incoming
 * recipe, and the create / read / update / delete / list facade over a document store
 * whose unique index is the recipe name.
 */
module Service {
  import opened Wrappers
  import opened Types
  import opened RecipeUtil
  import opened Criteria

  /** The domain errors of the facade. Internal stands for an uncaught store exception. */
  datatype Error = AlreadyExists | NotFound | Internal

  // ---------------------------------------------------------------------------
  // Record merge
  // ---------------------------------------------------------------------------

  /** The ASCII characters Java's Character.isWhitespace accepts. */
  predicate IsWhitespace(c: char)
    ensures IsWhitespace(c) ==> c < '\U{80}' && c != '\0'
    ensures c == ' ' || c == '\t' || c == '\n' || c == '\r' ==> IsWhitespace(c)
  {
    c == ' ' || '\t' <= c <= '\r' || '\U{1C}' <= c <= '\U{1F}'
  }

  /** Empty or made of whitespace only, as String.isBlank. */
  predicate IsBlank(s: string)
    ensures s == [] ==> IsBlank(s)
    ensures IsBlank(s) ==> forall c :: c in s ==> IsWhitespace(c)
  {
    forall i :: 0 <= i < |s| ==> IsWhitespace(s[i])
  }

  /** A supplied string: not null and not blank. */
  predicate IsNotNullOrNotEmpty(v: Option<string>)
    ensures IsNotNullOrNotEmpty(v) ==> v.Some? && v.value != []
  {
    v.Some? && !IsBlank(v.value)
  }

  /**
   * Null, the empty string and whitespace-only strings count as not supplied; a string
   * with any character that is not whitespace counts as supplied.
   */
  lemma NotNullOrNotEmptyCases(v: Option<string>)
    ensures IsNotNullOrNotEmpty(v) <==> v.Some? && exists i :: 0 <= i < |v.value| && !IsWhitespace(v.value[i])
    ensures !IsNotNullOrNotEmpty(None) && !IsNotNullOrNotEmpty(Some(""))
  {
  }

  /** An incoming recipe that supplies nothing an update would take. */
  predicate SuppliesNothing(received: Recipe) {
    !IsNotNullOrNotEmpty(received.name) && received.servings <= 0 &&
    !IsNotNullOrNotEmpty(received.isVegetarian) && !IsNotNullOrNotEmpty(received.instructions) &&
    received.ingredients.None?
  }

  /**
   * The document after a partial update: each string field is overwritten only by a
   * supplied string, servings only by a positive count, the ingredient list wholesale
   * by a non-null list; the id is never touched.
   */
  function Merged(d: EntityDoc, received: Recipe): (m: EntityDoc)
    ensures m.id == d.id
    ensures m.recipeName == d.recipeName || m.recipeName == received.name
    ensures m.ingredients.Some? <==> d.ingredients.Some? || received.ingredients.Some?
    ensures received.servings <= 0 ==> m.servings == d.servings
  {
    d.(recipeName := if IsNotNullOrNotEmpty(received.name) then received.name else d.recipeName,
       servings := if received.servings > 0 then received.servings else d.servings,
       isVegetarian := if IsNotNullOrNotEmpty(received.isVegetarian) then received.isVegetarian else d.isVegetarian,
       instructions := if IsNotNullOrNotEmpty(received.instructions) then received.instructions else d.instructions,
       ingredients := if received.ingredients.Some?
                      then Some(MapToIngredientsEntity(received.ingredients.value))
                      else d.ingredients)
  }

  /**
   * The rule for each field: a string field takes the received value exactly when that
   * value is supplied (non-null and not blank) and keeps its old value otherwise;
   * servings take a positive received count and are kept otherwise; a non-null list
   * replaces the old one, a null list keeps it; the id is always kept.
   */
  lemma MergeFieldRules(d: EntityDoc, received: Recipe)
    ensures var m := Merged(d, received);
      m.id == d.id &&
      m.recipeName == (if IsNotNullOrNotEmpty(received.name) then received.name else d.recipeName) &&
      m.isVegetarian == (if IsNotNullOrNotEmpty(received.isVegetarian) then received.isVegetarian else d.isVegetarian) &&
      m.instructions == (if IsNotNullOrNotEmpty(received.instructions) then received.instructions else d.instructions) &&
      m.servings == (if received.servings > 0 then received.servings else d.servings) &&
      (received.ingredients.None? ==> m.ingredients == d.ingredients) &&
      (received.ingredients.Some? ==> m.ingredients == Some(MapToIngredientsEntity(received.ingredients.value)))
  {
  }

  /** A supplied ingredient list replaces the old one entirely: reading it back gives exactly the new list. */
  lemma MergeReplacesIngredients(d: EntityDoc, received: Recipe)
    requires received.ingredients.Some?
    ensures Merged(d, received).ingredients.Some?
    ensures MapToIngredients(Merged(d, received).ingredients.value) == received.ingredients.value
  {
    IngredientsRoundTrip(received.ingredients.value);
  }

  /** An incoming recipe that supplies nothing leaves the document as it was. */
  lemma MergeNoOp(d: EntityDoc, received: Recipe)
    requires SuppliesNothing(received)
    ensures Merged(d, received) == d
  {
  }

  /** Applying the same update twice is the same as applying it once. */
  lemma MergeIdempotent(d: EntityDoc, received: Recipe)
    ensures Merged(Merged(d, received), received) == Merged(d, received)
  {
  }

  /**
   * A recipe that supplies every field, merged into any document, reads back as that
   * recipe with the document's id.
   */
  lemma MergeFullRecipe(d: EntityDoc, received: Recipe)
    requires IsNotNullOrNotEmpty(received.name) && received.servings > 0
    requires IsNotNullOrNotEmpty(received.isVegetarian) && IsNotNullOrNotEmpty(received.instructions)
    requires received.ingredients.Some?
    ensures MapToRecipe(Merged(d, received)) == received.(id := d.id)
  {
    IngredientsRoundTrip(received.ingredients.value);
  }

  // ---------------------------------------------------------------------------
  // By-name lookups
  // ---------------------------------------------------------------------------

  /** The query of every by-name lookup: the filter map with the one entry recipeName -> name. */
  function ByNameQuery(name: string): (q: Cond)
    ensures q == And([GetCriteria("recipeName", name)])
  {
    StoredKeysAreNotIngredientKeys();
    var q := CreateMongoQuery(map["recipeName" := name], ["recipeName"]);
    assert q.conds == [GetCriteria("recipeName", name)];
    q
  }

  /**
   * What a by-name lookup selects. A plain name selects exactly the document of that
   * name; a name starting with `!` selects every document NOT named like it without its
   * `!`s; a single-digit name selects nothing at all.
   */
  lemma ByNameQueryMeaning(name: string, d: EntityDoc, rx: (string, string) -> bool)
    ensures IsPlainValue(name) ==> (Eval(ByNameQuery(name), d, rx) <==> d.recipeName == Some(name))
    ensures StartsWithBang(name) ==>
      (Eval(ByNameQuery(name), d, rx) <==> d.recipeName != Some(RemoveBangs(name)))
    ensures IsSingleDigit(name) ==> !Eval(ByNameQuery(name), d, rx)
  {
    var filter := map["recipeName" := name];
    QueryMeaning(filter, ["recipeName"], d, rx);
    StringFieldFilterMeaning("recipeName", name, d, rx);
  }

  // ---------------------------------------------------------------------------
  // The store facade
  // ---------------------------------------------------------------------------

  /**
   * The service over its document store. The store is modelled as the stored documents
   * keyed by recipe name (the unique index; a null name is a key of its own); the
   * store's regular-expression engine is `regexMatch(pattern, subject)`.
   */
  class RecipeService {
    var docs: map<Option<string>, EntityDoc>
    const regexMatch: (string, string) -> bool

    /** Every document sits under its own name and has an ingredient list. */
    ghost predicate Valid()
      reads this
    {
      forall k :: k in docs ==> docs[k].recipeName == k && docs[k].ingredients.Some?
    }

    /** A document store holding no recipes. */
    constructor (rx: (string, string) -> bool)
      ensures Valid() && docs == map[] && regexMatch == rx
    {
      docs := map[];
      regexMatch := rx;
    }

    /** The stored document satisfying the query, if any; which one, when several do, is up to the store. */
    method FindOne(q: Cond) returns (found: Option<EntityDoc>)
      requires Valid()
      ensures found.None? <==> forall k :: k in docs ==> !Eval(q, docs[k], regexMatch)
      ensures found.Some? ==>
        found.value.recipeName in docs && docs[found.value.recipeName] == found.value &&
        Eval(q, found.value, regexMatch)
    {
      if k :| k in docs && Eval(q, docs[k], regexMatch) {
        found := Some(docs[k]);
      } else {
        found := None;
      }
    }

    /** Every stored document satisfying the query, each once, in an order the store chooses. */
    method Find(q: Cond) returns (found: seq<EntityDoc>)
      requires Valid()
      ensures forall i :: 0 <= i < |found| ==>
        found[i].recipeName in docs && docs[found[i].recipeName] == found[i] &&
        Eval(q, found[i], regexMatch)
      ensures forall k :: k in docs && Eval(q, docs[k], regexMatch) ==> docs[k] in found
      ensures forall i, j :: 0 <= i < j < |found| ==> found[i].recipeName != found[j].recipeName
    {
      found := [];
      var pending := docs.Keys;
      while pending != {}
        invariant pending <= docs.Keys
        invariant forall i :: 0 <= i < |found| ==>
          found[i].recipeName in docs.Keys - pending && docs[found[i].recipeName] == found[i] &&
          Eval(q, found[i], regexMatch)
        invariant forall k :: k in docs.Keys - pending && Eval(q, docs[k], regexMatch) ==> docs[k] in found
        invariant forall i, j :: 0 <= i < j < |found| ==> found[i].recipeName != found[j].recipeName
        decreases pending
      {
        var k :| k in pending;
        if Eval(q, docs[k], regexMatch) {
          found := found + [docs[k]];
        }
        pending := pending - {k};
      }
    }

    /**
     * Stores a new recipe and returns it as stored. A recipe whose name is already
     * stored violates the unique index: AlreadyExists, and the store is unchanged.
     */
    method AddRecipe(recipe: Recipe) returns (r: Result<Recipe, Error>)
      requires Valid()
      requires recipe.ingredients.Some?
      modifies this
      ensures Valid()
      ensures r.Err? <==> recipe.name in old(docs)
      ensures r.Err? ==> r.error == AlreadyExists && docs == old(docs)
      ensures r.Ok? ==> r.value == recipe && docs == old(docs)[recipe.name := MapToRecipeEntity(recipe)]
    {
      var entity := MapToRecipeEntity(recipe);
      if entity.recipeName in docs {
        return Err(AlreadyExists);
      }
      docs := docs[entity.recipeName := entity];
      RecipeRoundTrip(recipe);
      r := Ok(MapToRecipe(entity));
    }

    /** Every stored recipe, each once. */
    method GetAllRecipes() returns (rs: seq<Recipe>)
      requires Valid()
      ensures forall i :: 0 <= i < |rs| ==> rs[i].name in docs && rs[i] == MapToRecipe(docs[rs[i].name])
      ensures forall k :: k in docs ==> MapToRecipe(docs[k]) in rs
      ensures forall i, j :: 0 <= i < j < |rs| ==> rs[i].name != rs[j].name
    {
      var found := Find(MatchAll);
      rs := MapAllToRecipes(found);
      forall k | k in docs ensures MapToRecipe(docs[k]) in rs {
        var i :| 0 <= i < |found| && found[i] == docs[k];
        assert rs[i] == MapToRecipe(docs[k]);
      }
    }

    /**
     * The recipe a by-name lookup finds, or NotFound when the lookup finds none. For a
     * plain name that is the recipe of exactly that name.
     */
    method GetRecipe(name: string) returns (r: Result<Recipe, Error>)
      requires Valid()
      ensures r.Err? <==> forall k :: k in docs ==> !Eval(ByNameQuery(name), docs[k], regexMatch)
      ensures r.Err? ==> r.error == NotFound
      ensures r.Ok? ==> exists k :: k in docs && Eval(ByNameQuery(name), docs[k], regexMatch) && r.value == MapToRecipe(docs[k])
      ensures IsPlainValue(name) ==>
        if Some(name) in docs then r == Ok(MapToRecipe(docs[Some(name)])) else r == Err(NotFound)
    {
      var found := FindOne(ByNameQuery(name));
      if found.None? {
        if IsPlainValue(name) && Some(name) in docs {
          ByNameQueryMeaning(name, docs[Some(name)], regexMatch);
        }
        return Err(NotFound);
      }
      ByNameQueryMeaning(name, found.value, regexMatch);
      r := Ok(MapToRecipe(found.value));
    }

    /** Removes a document: a no-op when it is no longer stored. */
    method Remove(d: EntityDoc)
      modifies this
      ensures docs == old(docs) - {d.recipeName}
    {
      docs := docs - {d.recipeName};
    }

    /**
     * Deletes the recipe a by-name lookup finds (NotFound, store unchanged, when it finds
     * none). The document is removed twice; the second removal changes nothing.
     */
    method DeleteRecipe(name: string) returns (r: Outcome<Error>)
      requires Valid()
      modifies this
      ensures Valid()
      ensures r.Fail? <==> forall k :: k in old(docs) ==> !Eval(ByNameQuery(name), old(docs)[k], regexMatch)
      ensures r.Fail? ==> r.error == NotFound && docs == old(docs)
      ensures r.Pass? ==> exists k :: k in old(docs) && Eval(ByNameQuery(name), old(docs)[k], regexMatch) && docs == old(docs) - {k}
      ensures IsPlainValue(name) ==>
        (r.Pass? <==> Some(name) in old(docs)) && docs == old(docs) - {Some(name)}
    {
      var found := FindOne(ByNameQuery(name));
      if found.None? {
        if IsPlainValue(name) && Some(name) in docs {
          ByNameQueryMeaning(name, docs[Some(name)], regexMatch);
        }
        return Fail(NotFound);
      }
      ByNameQueryMeaning(name, found.value, regexMatch);
      Remove(found.value);
      Remove(found.value);
      r := Pass;
    }

    /**
     * Lists the recipes satisfying the query built from the filter map, its entries
     * visited in the order `keys`; each matching recipe once. An empty map lists all.
     */
    method GetAllRecipesWithFiler(filter: map<string, string>, keys: seq<string>) returns (rs: seq<Recipe>)
      requires Valid()
      requires IsEnumeration(keys, filter)
      ensures forall i :: 0 <= i < |rs| ==>
        rs[i].name in docs && rs[i] == MapToRecipe(docs[rs[i].name]) &&
        forall k :: k in filter ==> Eval(KeyCriteria(k, filter[k]), docs[rs[i].name], regexMatch)
      ensures forall n :: n in docs && (forall k :: k in filter ==> Eval(KeyCriteria(k, filter[k]), docs[n], regexMatch)) ==>
        MapToRecipe(docs[n]) in rs
      ensures forall i, j :: 0 <= i < j < |rs| ==> rs[i].name != rs[j].name
    {
      var q := CreateMongoQuery(filter, keys);
      var found := Find(q);
      rs := MapAllToRecipes(found);
      forall i | 0 <= i < |rs|
        ensures forall k :: k in filter ==> Eval(KeyCriteria(k, filter[k]), docs[rs[i].name], regexMatch)
      {
        QueryMeaning(filter, keys, found[i], regexMatch);
      }
      forall n | n in docs && (forall k :: k in filter ==> Eval(KeyCriteria(k, filter[k]), docs[n], regexMatch))
        ensures MapToRecipe(docs[n]) in rs
      {
        QueryMeaning(filter, keys, docs[n], regexMatch);
        var i :| 0 <= i < |found| && found[i] == docs[n];
        assert rs[i] == MapToRecipe(docs[n]);
      }
    }

    /**
     * Merges the incoming recipe into the entity in place, field by field, as Merged
     * says; the id is never touched.
     */
    method UpdateEntity(existing: RecipeEntity, received: Recipe)
      modifies existing
      ensures existing.Doc() == Merged(old(existing.Doc()), received)
      ensures existing.id == old(existing.id)
    {
      if IsNotNullOrNotEmpty(received.name) {
        existing.recipeName := received.name;
      }
      if received.servings > 0 {
        existing.servings := received.servings;
      }
      if IsNotNullOrNotEmpty(received.isVegetarian) {
        existing.isVegetarian := received.isVegetarian;
      }
      if IsNotNullOrNotEmpty(received.instructions) {
        existing.instructions := received.instructions;
      }
      if received.ingredients.Some? {
        existing.ingredients := Some(MapToIngredientsEntity(received.ingredients.value));
      }
    }

    /**
     * Updates the recipe a by-name lookup finds (NotFound, store unchanged, when it finds
     * none): the found document is merged with the incoming recipe and saved in its
     * place. Renaming it onto another stored name violates the unique index, which the
     * service does not catch: Internal, store unchanged.
     */
    method UpdateRecipe(name: string, received: Recipe) returns (r: Result<Recipe, Error>)
      requires Valid()
      modifies this
      ensures Valid()
      ensures r == Err(NotFound) <==> forall k :: k in old(docs) ==> !Eval(ByNameQuery(name), old(docs)[k], regexMatch)
      ensures r.Err? ==> docs == old(docs)
      ensures r != Err(NotFound) ==> exists k :: (k in old(docs) && Eval(ByNameQuery(name), old(docs)[k], regexMatch) &&
        var m := Merged(old(docs)[k], received);
        if m.recipeName != k && m.recipeName in old(docs)
        then r == Err(Internal) && docs == old(docs)
        else r == Ok(MapToRecipe(m)) && docs == (old(docs) - {k})[m.recipeName := m])
      ensures IsPlainValue(name) ==> (r == Err(NotFound) <==> Some(name) !in old(docs))
      ensures IsPlainValue(name) && Some(name) in old(docs) ==>
        var m := Merged(old(docs)[Some(name)], received);
        if m.recipeName != Some(name) && m.recipeName in old(docs)
        then r == Err(Internal) && docs == old(docs)
        else r == Ok(MapToRecipe(m)) && docs == (old(docs) - {Some(name)})[m.recipeName := m]
      ensures SuppliesNothing(received) ==> docs == old(docs)
    {
      var found := FindOne(ByNameQuery(name));
      if found.None? {
        if IsPlainValue(name) && Some(name) in docs {
          ByNameQueryMeaning(name, docs[Some(name)], regexMatch);
        }
        return Err(NotFound);
      }
      ByNameQueryMeaning(name, found.value, regexMatch);
      var entity := new RecipeEntity(found.value);
      UpdateEntity(entity, received);
      var saved := entity.Doc();
      if saved.recipeName != found.value.recipeName && saved.recipeName in docs {
        return Err(Internal);
      }
      if SuppliesNothing(received) {
        MergeNoOp(found.value, received);
        assert (docs - {found.value.recipeName})[saved.recipeName := saved] == docs;
      }
      docs := (docs - {found.value.recipeName})[saved.recipeName := saved];
      r := Ok(MapToRecipe(saved));
    }
  }
}
