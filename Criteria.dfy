/**
 * The filter translator: turns the query parameters of a listing request (or the
 * one-entry filter of a by-name lookup) into a composite store condition, and an
 * evaluator giving the document store's meaning of such a condition on one stored
 * document.
 */
module Criteria {
  import opened Wrappers
  import opened Types

  /** A store condition. `Regex` is left uninterpreted: its meaning is a parameter. */
  datatype Cond =
    | MatchAll
    | IsInt(path: string, n: Int32)
    | IsStr(path: string, s: string)
    | Ne(path: string, s: string)
    | Regex(path: string, pattern: string)
    | And(conds: seq<Cond>)

  // ---------------------------------------------------------------------------
  // Inspecting values and keys
  // ---------------------------------------------------------------------------

  /** The value matches the regular expression `[0-9]` as a whole. */
  predicate IsSingleDigit(v: string) {
    |v| == 1 && '0' <= v[0] <= '9'
  }

  /** The value starts with `!`. */
  predicate StartsWithBang(v: string) {
    |v| > 0 && v[0] == '!'
  }

  /** A value that is compared by plain string equality. */
  predicate IsPlainValue(v: string) {
    !IsSingleDigit(v) && !StartsWithBang(v)
  }

  /** The integer a decimal digit denotes, as Integer.parseInt reads it. */
  function DigitValue(c: char): (n: Int32)
    requires '0' <= c <= '9'
    ensures 0 <= n <= 9
  {
    (c as int - '0' as int) as Int32
  }

  /** The value with every `!` removed (a replace, not a prefix strip). */
  function RemoveBangs(v: string): (r: string)
    ensures '!' !in r
  {
    if v == [] then []
    else (if v[0] == '!' then [] else [v[0]]) + RemoveBangs(v[1..])
  }

  /** The removal keeps every other character, as often as it occurs. */
  lemma {:induction false} RemoveBangsMultiset(v: string)
    ensures multiset(RemoveBangs(v)) == multiset(v)['!' := 0]
  {
    if v != [] {
      assert v == [v[0]] + v[1..];
      RemoveBangsMultiset(v[1..]);
    }
  }

  /** `sub` occurs in `key` as a contiguous substring. */
  predicate ContainsSubstring(key: string, sub: string)
    decreases |key|
  {
    if |key| < |sub| then false
    else key[..|sub|] == sub || ContainsSubstring(key[1..], sub)
  }

  // ---------------------------------------------------------------------------
  // Translation
  // ---------------------------------------------------------------------------

  /** The condition on one field, chosen by the syntax of the value. */
  function GetCriteria(key: string, value: string): (c: Cond)
    ensures (c.IsInt? || c.IsStr? || c.Ne?) && c.path == key
    ensures c.IsInt? ==> 0 <= c.n <= 9
    ensures c.Ne? ==> '!' !in c.s
  {
    if IsSingleDigit(value) then IsInt(key, DigitValue(value[0]))
    else if StartsWithBang(value) then Ne(key, RemoveBangs(value))
    else IsStr(key, value)
  }

  /** The condition for one filter entry, chosen by its key. */
  function KeyCriteria(key: string, value: string): (c: Cond)
    ensures c.Regex? <==> key == "instructions"
    ensures c.Regex? ==> c.pattern == value
    ensures !c.MatchAll? && !c.And? && (c.path == key || c.path == "ingredients.name")
  {
    if key == "instructions" then Regex("instructions", value)
    else if ContainsSubstring(key, "ingredient") then GetCriteria("ingredients.name", value)
    else GetCriteria(key, value)
  }

  /** `keys` lists every key of `filter` exactly once: an iteration order of its entries. */
  predicate IsEnumeration(keys: seq<string>, filter: map<string, string>) {
    (forall k :: k in keys ==> k in filter) &&
    (forall k :: k in filter ==> k in keys) &&
    (forall i, j :: 0 <= i < j < |keys| ==> keys[i] != keys[j])
  }

  /** One condition per listed key, in the listed order. */
  function Conjuncts(filter: map<string, string>, keys: seq<string>): (cs: seq<Cond>)
    requires forall k :: k in keys ==> k in filter
    ensures |cs| == |keys|
  {
    if keys == [] then []
    else [KeyCriteria(keys[0], filter[keys[0]])] + Conjuncts(filter, keys[1..])
  }

  /** The condition at position i is the one for the i-th listed key. */
  lemma {:induction false} ConjunctsAt(filter: map<string, string>, keys: seq<string>)
    requires forall k :: k in keys ==> k in filter
    ensures forall i :: 0 <= i < |keys| ==> Conjuncts(filter, keys)[i] == KeyCriteria(keys[i], filter[keys[i]])
  {
    if keys != [] {
      ConjunctsAt(filter, keys[1..]);
      forall i | 1 <= i < |keys|
        ensures Conjuncts(filter, keys)[i] == KeyCriteria(keys[i], filter[keys[i]])
      {
        assert Conjuncts(filter, keys)[i] == Conjuncts(filter, keys[1..])[i - 1];
        assert keys[1..][i - 1] == keys[i];
      }
    }
  }

  /**
   * The query for a filter map whose entries are visited in the order `keys`:
   * match-all for an empty map, otherwise the conjunction of one condition per entry.
   */
  function CreateMongoQuery(filter: map<string, string>, keys: seq<string>): (q: Cond)
    requires IsEnumeration(keys, filter)
    ensures q == MatchAll <==> filter == map[]
    ensures q != MatchAll ==>
      q.And? && |q.conds| == |keys| == |filter| &&
      forall i :: 0 <= i < |keys| ==> q.conds[i] == KeyCriteria(keys[i], filter[keys[i]])
  {
    DistinctCardinality(keys, filter);
    ConjunctsAt(filter, keys);
    if keys == [] then
      assert forall k :: k !in filter;
      MatchAll
    else
      assert keys[0] in filter;
      And(Conjuncts(filter, keys))
  }

  /** A duplicate-free listing of a map's keys is as long as the map. */
  lemma {:induction false} DistinctCardinality(keys: seq<string>, filter: map<string, string>)
    requires IsEnumeration(keys, filter)
    ensures |keys| == |filter|
  {
    if keys == [] {
      assert forall k :: k !in filter;
      assert filter == map[];
    } else {
      var k := keys[0];
      var rest := filter - {k};
      forall j | 0 <= j < |keys[1..]| ensures keys[1..][j] != k {
        assert keys[1..][j] == keys[j + 1];
      }
      forall x ensures x in keys[1..] <==> x in rest {
        if x in rest {
          assert x in keys && x != k;
          var i :| 0 <= i < |keys| && keys[i] == x;
          assert i > 0;
          assert keys[1..][i - 1] == x;
        }
      }
      DistinctCardinality(keys[1..], rest);
      assert filter.Keys == rest.Keys + {k};
    }
  }

  // ---------------------------------------------------------------------------
  // Meaning of a condition on a stored document
  // ---------------------------------------------------------------------------

  /** What a path addresses in a document. */
  datatype FieldValue =
    | Absent
    | IntValue(n: Int32)
    | StrValue(s: string)
    | StrArray(items: seq<Option<string>>)

  function OptionalString(v: Option<string>): FieldValue {
    match v
    case None => Absent
    case Some(s) => StrValue(s)
  }

  /** The names of the embedded ingredients, in order. */
  function IngredientNames(xs: seq<IngredientEntity>): (ns: seq<Option<string>>)
    ensures |ns| == |xs|
    ensures forall i :: 0 <= i < |xs| ==> ns[i] == xs[i].name
  {
    if xs == [] then [] else [xs[0].name] + IngredientNames(xs[1..])
  }

  /** The type hint the store writes into every document of the entity class. */
  const EntityClassName := "com.assignment.amit.recipemanager.entity.RecipeEntity"

  /**
   * The value at a path of a stored document. The id is stored as `_id` and can be
   * addressed by either name; `_class` holds the type hint. `ingredients.name` addresses the names
   * of all embedded ingredients; a path naming no stored field addresses nothing.
   */
  function FieldAt(d: EntityDoc, path: string): FieldValue {
    if path == "id" || path == "_id" then OptionalString(d.id)
    else if path == "_class" then StrValue(EntityClassName)
    else if path == "recipeName" then OptionalString(d.recipeName)
    else if path == "servings" then IntValue(d.servings)
    else if path == "instructions" then OptionalString(d.instructions)
    else if path == "isVegetarian" then OptionalString(d.isVegetarian)
    else if path == "ingredients.name" then
      match d.ingredients
      case None => Absent
      case Some(xs) => StrArray(IngredientNames(xs))
    else Absent
  }

  /** String equality as the store applies it; on an array, some element is equal. */
  predicate EqualsStr(f: FieldValue, s: string) {
    match f
    case StrValue(t) => t == s
    case StrArray(items) => Some(s) in items
    case _ => false
  }

  /** Integer equality: only an integer field can be equal to an integer. */
  predicate EqualsInt(f: FieldValue, n: Int32) {
    f == IntValue(n)
  }

  /** Pattern matching through the store's regular-expression engine `rx(pattern, subject)`. */
  predicate MatchesPattern(f: FieldValue, pattern: string, rx: (string, string) -> bool) {
    match f
    case StrValue(t) => rx(pattern, t)
    case StrArray(items) => exists item :: item in items && item.Some? && rx(pattern, item.value)
    case _ => false
  }

  /**
   * Whether a document satisfies a condition. Not-equal holds exactly where equality
   * does not, so it also holds of a missing field and of an array none of whose
   * elements is equal.
   */
  predicate Eval(c: Cond, d: EntityDoc, rx: (string, string) -> bool) {
    match c
    case MatchAll => true
    case IsInt(p, n) => EqualsInt(FieldAt(d, p), n)
    case IsStr(p, s) => EqualsStr(FieldAt(d, p), s)
    case Ne(p, s) => !EqualsStr(FieldAt(d, p), s)
    case Regex(p, pattern) => MatchesPattern(FieldAt(d, p), pattern, rx)
    case And(cs) => forall i :: 0 <= i < |cs| ==> Eval(cs[i], d, rx)
  }

  /** Some embedded ingredient of the document is named `s`. */
  predicate HasIngredientNamed(d: EntityDoc, s: string) {
    d.ingredients.Some? && exists i :: 0 <= i < |d.ingredients.value| && d.ingredients.value[i].name == Some(s)
  }

  // ---------------------------------------------------------------------------
  // Properties of the translation
  // ---------------------------------------------------------------------------

  /**
   * The operator chosen for a value: a single digit gives integer equality, a value
   * starting with `!` gives not-equal against the value with every `!` removed, and
   * every other value (multi-digit numbers included) gives string equality.
   */
  lemma GetCriteriaOperator(key: string, value: string)
    ensures GetCriteria(key, value).path == key
    ensures GetCriteria(key, value).IsInt? <==> IsSingleDigit(value)
    ensures GetCriteria(key, value).Ne? <==> StartsWithBang(value)
    ensures GetCriteria(key, value).IsStr? <==> IsPlainValue(value)
    ensures IsSingleDigit(value) ==> GetCriteria(key, value).n as int == value[0] as int - '0' as int
    ensures StartsWithBang(value) ==> GetCriteria(key, value).s == RemoveBangs(value)
    ensures IsPlainValue(value) ==> GetCriteria(key, value).s == value
  {
  }

  /**
   * The key decides the field: `instructions` always becomes a pattern match on the
   * instructions, any other key containing `ingredient` targets the ingredient names,
   * and every remaining key is used as the field path itself.
   */
  lemma KeyCriteriaDispatch(key: string, value: string)
    ensures KeyCriteria(key, value).Regex? <==> key == "instructions"
    ensures KeyCriteria(key, value).path ==
      if key == "instructions" then "instructions"
      else if ContainsSubstring(key, "ingredient") then "ingredients.name"
      else key
    ensures key == "instructions" ==> KeyCriteria(key, value).pattern == value
  {
    if key != "instructions" {
      if ContainsSubstring(key, "ingredient") {
        GetCriteriaOperator("ingredients.name", value);
      } else {
        GetCriteriaOperator(key, value);
      }
    }
  }

  /**
   * The negated value loses every `!`, not only the leading one: `!a!b` is compared
   * against `ab`, where stripping the prefix would give `a!b`.
   */
  lemma BangsRemovedEverywhere()
    ensures GetCriteria("recipeName", "!a!b") == Ne("recipeName", "ab")
    ensures "!a!b"[1..] != "ab"
  {
    assert "!a!b" == "!" + "a!b";
    assert "a!b" == "a" + "!b";
    assert "!b" == "!" + "b";
    RemoveBangsConcat("!", "a!b");
    RemoveBangsConcat("a", "!b");
    RemoveBangsConcat("!", "b");
    RemoveBangsIdentity("a");
    RemoveBangsIdentity("b");
    assert RemoveBangs("!") == [];
  }

  /** A value without `!` is left as it is by the removal. */
  lemma {:induction false} RemoveBangsIdentity(v: string)
    requires '!' !in v
    ensures RemoveBangs(v) == v
  {
    if v != [] {
      assert forall c :: c in v[1..] ==> c in v;
      RemoveBangsIdentity(v[1..]);
      assert v == [v[0]] + v[1..];
    }
  }

  /** The removal keeps the order of what it keeps: it distributes over concatenation. */
  lemma {:induction false} RemoveBangsConcat(a: string, b: string)
    ensures RemoveBangs(a + b) == RemoveBangs(a) + RemoveBangs(b)
  {
    if a == [] {
      assert a + b == b;
    } else {
      assert (a + b)[0] == a[0] && (a + b)[1..] == a[1..] + b;
      RemoveBangsConcat(a[1..], b);
    }
  }

  /** Some(s) occurs among the ingredient names exactly when an ingredient is named s. */
  lemma IngredientNamesMember(d: EntityDoc, s: string)
    requires d.ingredients.Some?
    ensures Some(s) in IngredientNames(d.ingredients.value) <==> HasIngredientNamed(d, s)
  {
    var ns := IngredientNames(d.ingredients.value);
    if Some(s) in ns {
      var i :| 0 <= i < |ns| && ns[i] == Some(s);
      assert d.ingredients.value[i].name == Some(s);
    }
  }

  /**
   * A key containing `ingredient` (other than `instructions`) filters on the names of
   * the embedded ingredients: a plain value keeps the documents having an ingredient
   * of that name, a `!` value keeps those having none, a single digit keeps nothing.
   */
  lemma IngredientFilterMeaning(key: string, value: string, d: EntityDoc, rx: (string, string) -> bool)
    requires key != "instructions" && ContainsSubstring(key, "ingredient")
    ensures IsSingleDigit(value) ==> !Eval(KeyCriteria(key, value), d, rx)
    ensures StartsWithBang(value) ==>
      (Eval(KeyCriteria(key, value), d, rx) <==> !HasIngredientNamed(d, RemoveBangs(value)))
    ensures IsPlainValue(value) ==>
      (Eval(KeyCriteria(key, value), d, rx) <==> HasIngredientNamed(d, value))
  {
    var c := KeyCriteria(key, value);
    assert c == GetCriteria("ingredients.name", value);
    var f := FieldAt(d, "ingredients.name");
    if d.ingredients.Some? {
      assert f == StrArray(IngredientNames(d.ingredients.value));
      IngredientNamesMember(d, value);
      IngredientNamesMember(d, RemoveBangs(value));
    } else {
      assert f == Absent;
    }
  }

  /** The `instructions` key gives a pattern match on the instructions, the value unmodified. */
  lemma InstructionsFilterMeaning(value: string, d: EntityDoc, rx: (string, string) -> bool)
    ensures KeyCriteria("instructions", value) == Regex("instructions", value)
    ensures Eval(KeyCriteria("instructions", value), d, rx) <==>
      d.instructions.Some? && rx(value, d.instructions.value)
  {
  }

  /** No key of a stored top-level field contains `ingredient`. */
  lemma StoredKeysAreNotIngredientKeys()
    ensures !ContainsSubstring("id", "ingredient")
    ensures !ContainsSubstring("_id", "ingredient")
    ensures !ContainsSubstring("_class", "ingredient")
    ensures !ContainsSubstring("recipeName", "ingredient")
    ensures !ContainsSubstring("servings", "ingredient")
    ensures !ContainsSubstring("isVegetarian", "ingredient")
  {
    assert "recipeName"[1..] == "ecipeName";
    assert "isVegetarian"[1..] == "sVegetarian";
    assert "isVegetarian"[1..][1..] == "Vegetarian";
    assert "isVegetarian"[1..][1..][1..] == "egetarian";
    assert "isVegetarian"[..10][1] != "ingredient"[1];
    assert "sVegetarian"[..10][0] != "ingredient"[0];
    assert "Vegetarian"[..10][0] != "ingredient"[0];
  }

  /** The keys of the top-level string fields: the id under both names, the type hint, the name and the flag. */
  predicate IsStringFieldKey(key: string) {
    key == "id" || key == "_id" || key == "_class" || key == "recipeName" || key == "isVegetarian"
  }

  /** The string value a top-level string field of the document holds. */
  function StringFieldOf(d: EntityDoc, key: string): Option<string>
    requires IsStringFieldKey(key)
  {
    if key == "id" || key == "_id" then d.id
    else if key == "_class" then Some(EntityClassName)
    else if key == "recipeName" then d.recipeName
    else d.isVegetarian
  }

  /**
   * On a top-level string field (`id` or `_id`, `_class`, `recipeName`, `isVegetarian`)
   * a plain value is exact equality, a `!` value is inequality to the value without its
   * `!`s (a null field is unequal to everything), and a single digit never matches a
   * string.
   */
  lemma StringFieldFilterMeaning(key: string, value: string, d: EntityDoc, rx: (string, string) -> bool)
    requires IsStringFieldKey(key)
    ensures IsSingleDigit(value) ==> !Eval(KeyCriteria(key, value), d, rx)
    ensures StartsWithBang(value) ==>
      (Eval(KeyCriteria(key, value), d, rx) <==> StringFieldOf(d, key) != Some(RemoveBangs(value)))
    ensures IsPlainValue(value) ==>
      (Eval(KeyCriteria(key, value), d, rx) <==> StringFieldOf(d, key) == Some(value))
  {
    StoredKeysAreNotIngredientKeys();
    assert KeyCriteria(key, value) == GetCriteria(key, value);
  }

  /**
   * On `servings`, an integer field, only a single digit can match (integer equality);
   * a `!` value matches every document and any other value, a multi-digit number
   * included, matches none.
   */
  lemma ServingsFilterMeaning(value: string, d: EntityDoc, rx: (string, string) -> bool)
    ensures IsSingleDigit(value) ==>
      (Eval(KeyCriteria("servings", value), d, rx) <==> d.servings as int == value[0] as int - '0' as int)
    ensures StartsWithBang(value) ==> Eval(KeyCriteria("servings", value), d, rx)
    ensures IsPlainValue(value) ==> !Eval(KeyCriteria("servings", value), d, rx)
  {
    StoredKeysAreNotIngredientKeys();
    assert KeyCriteria("servings", value) == GetCriteria("servings", value);
  }

  /**
   * A key that names no stored field, is neither `instructions` nor an ingredient key,
   * and does not start with `$` (which the store reads as a query operator) matches
   * nothing, unless its value starts with `!`, in which case it matches everything.
   */
  lemma UnknownKeyFilterMeaning(key: string, value: string, d: EntityDoc, rx: (string, string) -> bool)
    requires key !in {"id", "_id", "_class", "recipeName", "servings", "instructions", "isVegetarian", "ingredients.name"}
    requires !(|key| > 0 && key[0] == '$')
    requires !ContainsSubstring(key, "ingredient")
    ensures Eval(KeyCriteria(key, value), d, rx) <==> StartsWithBang(value)
  {
  }

  /** A document satisfies the query of a filter map exactly when it satisfies every entry's condition. */
  lemma QueryMeaning(filter: map<string, string>, keys: seq<string>, d: EntityDoc, rx: (string, string) -> bool)
    requires IsEnumeration(keys, filter)
    ensures Eval(CreateMongoQuery(filter, keys), d, rx) <==>
      forall k :: k in filter ==> Eval(KeyCriteria(k, filter[k]), d, rx)
  {
    var q := CreateMongoQuery(filter, keys);
    if q != MatchAll {
      if Eval(q, d, rx) {
        forall k | k in filter ensures Eval(KeyCriteria(k, filter[k]), d, rx) {
          var i :| 0 <= i < |keys| && keys[i] == k;
          assert q.conds[i] == KeyCriteria(k, filter[k]);
        }
      } else {
        var i :| 0 <= i < |q.conds| && !Eval(q.conds[i], d, rx);
        assert keys[i] in filter;
      }
    }
  }

  /** Each element of a duplicate-free sequence occurs in it once. */
  lemma {:induction false} DistinctMultiset(keys: seq<string>)
    requires forall i, j :: 0 <= i < j < |keys| ==> keys[i] != keys[j]
    ensures forall x :: multiset(keys)[x] == if x in keys then 1 else 0
  {
    if keys != [] {
      var rest := keys[1..];
      forall i, j | 0 <= i < j < |rest| ensures rest[i] != rest[j] {
        assert rest[i] == keys[i + 1] && rest[j] == keys[j + 1];
      }
      DistinctMultiset(rest);
      assert keys == [keys[0]] + rest;
      forall j | 0 <= j < |rest| ensures rest[j] != keys[0] {
        assert rest[j] == keys[j + 1];
      }
    }
  }

  lemma {:induction false} ConjunctsConcat(filter: map<string, string>, a: seq<string>, b: seq<string>)
    requires forall k :: k in a ==> k in filter
    requires forall k :: k in b ==> k in filter
    ensures Conjuncts(filter, a + b) == Conjuncts(filter, a) + Conjuncts(filter, b)
  {
    if a == [] {
      assert a + b == b;
    } else {
      assert (a + b)[0] == a[0] && (a + b)[1..] == a[1..] + b;
      ConjunctsConcat(filter, a[1..], b);
    }
  }

  /** Taking out the element at `j` takes one occurrence of it out of the multiset. */
  lemma {:induction false} MultisetRemoveAt(b: seq<string>, j: nat)
    requires j < |b|
    ensures multiset(b[..j] + b[j + 1..]) == multiset(b) - multiset{b[j]}
  {
    assert b == b[..j] + [b[j]] + b[j + 1..];
  }

  lemma {:induction false} MultisetSplice<T>(p: seq<T>, x: seq<T>, q: seq<T>)
    ensures multiset(p + (x + q)) == multiset(p + q) + multiset(x)
  {
  }

  /** The conditions of `b` are those of `b` without its element `j`, plus that element's. */
  lemma {:induction false} ConjunctsRemoveAt(filter: map<string, string>, b: seq<string>, j: nat)
    requires forall k :: k in b ==> k in filter
    requires j < |b|
    ensures forall k :: k in b[..j] + b[j + 1..] ==> k in filter
    ensures multiset(Conjuncts(filter, b)) ==
      multiset(Conjuncts(filter, b[..j] + b[j + 1..])) + multiset(Conjuncts(filter, [b[j]]))
  {
    var pre, x, post := b[..j], b[j], b[j + 1..];
    assert forall k :: k in pre ==> k in b;
    assert forall k :: k in post ==> k in b;
    assert b == pre + ([x] + post);
    ConjunctsConcat(filter, pre, [x] + post);
    ConjunctsConcat(filter, [x], post);
    ConjunctsConcat(filter, pre, post);
    MultisetSplice(Conjuncts(filter, pre), Conjuncts(filter, [x]), Conjuncts(filter, post));
  }

  /** The first element of `a` sits somewhere in its permutation `b`; the rests agree. */
  lemma {:induction false} PermutationHead(a: seq<string>, b: seq<string>) returns (j: nat)
    requires a != [] && multiset(a) == multiset(b)
    ensures j < |b| && b[j] == a[0]
    ensures multiset(a[1..]) == multiset(b[..j] + b[j + 1..])
  {
    assert a == [a[0]] + a[1..];
    assert a[0] in multiset(b) by {
      assert a[0] in multiset(a);
    }
    j :| 0 <= j < |b| && b[j] == a[0];
    MultisetRemoveAt(b, j);
  }

  /** Visiting the same keys in another order gives the same conditions, counted with multiplicity. */
  lemma {:induction false} ConjunctsPermutation(filter: map<string, string>, a: seq<string>, b: seq<string>)
    requires forall k :: k in a ==> k in filter
    requires forall k :: k in b ==> k in filter
    requires multiset(a) == multiset(b)
    ensures multiset(Conjuncts(filter, a)) == multiset(Conjuncts(filter, b))
  {
    if a == [] {
      assert |b| == |multiset(b)| == 0;
    } else {
      var j := PermutationHead(a, b);
      ConjunctsRemoveAt(filter, b, j);
      ConjunctsPermutation(filter, a[1..], b[..j] + b[j + 1..]);
      ConjunctsConcat(filter, [a[0]], a[1..]);
      assert a == [a[0]] + a[1..];
      MultisetSplice([], Conjuncts(filter, [a[0]]), Conjuncts(filter, a[1..]));
    }
  }

  /**
   * The query does not depend on the order in which the entries are visited: for two
   * orders, the conjuncts are the same multiset and every document gets the same verdict.
   */
  lemma QueryOrderIndependent(filter: map<string, string>, keys1: seq<string>, keys2: seq<string>,
                              d: EntityDoc, rx: (string, string) -> bool)
    requires IsEnumeration(keys1, filter) && IsEnumeration(keys2, filter)
    ensures CreateMongoQuery(filter, keys1).And? <==> CreateMongoQuery(filter, keys2).And?
    ensures CreateMongoQuery(filter, keys1).And? ==>
      multiset(CreateMongoQuery(filter, keys1).conds) == multiset(CreateMongoQuery(filter, keys2).conds)
    ensures Eval(CreateMongoQuery(filter, keys1), d, rx) == Eval(CreateMongoQuery(filter, keys2), d, rx)
  {
    QueryMeaning(filter, keys1, d, rx);
    QueryMeaning(filter, keys2, d, rx);
    DistinctMultiset(keys1);
    DistinctMultiset(keys2);
    assert multiset(keys1) == multiset(keys2);
    if keys1 != [] {
      ConjunctsPermutation(filter, keys1, keys2);
    }
  }
}
