/** Where the simplification departs from JSON Schema Core 2020-12, which tells keywords from names
    and data by their position and lets `$ref` stand beside other keywords. */
module SchemaStandard {
  import opened Dicts
  import opened SchemaSimplifier
  import opened SchemaUnfolding

  /** What a value stands for: a schema (or a list of schemas), a map from property names to
      schemas, or data. */
  datatype Position = SchemaAt | NamesAt | DataAt

  /** The applicators of sections 10 and 11 of JSON Schema Core 2020-12. */
  function PositionOf(key: string): Position {
    if key in {"properties", "patternProperties", "dependentSchemas"} then NamesAt
    else if key in {"allOf", "anyOf", "oneOf", "not", "if", "then", "else", "prefixItems", "items", "contains",
                    "additionalProperties", "propertyNames", "unevaluatedItems", "unevaluatedProperties"} then SchemaAt
    else DataAt
  }

  predicate KeepsNone(fields: Dict<string, Json>) {
    forall i :: 0 <= i < |fields| ==> Dropped(fields[i].0)
  }

  /** The unfolding by position: names and data are kept, and what stands beside a reference is kept
      beside its target (section 8.2.3.1 of JSON Schema Core 2020-12). A name's value that is no
      schema has none. */
  function Standard(root: Json, v: Json, at: Position, fuel: nat): Option<Json>
    decreases fuel, Size(v), 3
  {
    match at
    case DataAt => Some(v)
    case NamesAt =>
      if !v.Object? then None
      else (match StandardNames(root, v.fields, fuel) case None => None case Some(fs) => Some(Object(fs)))
    case SchemaAt =>
      match v
      case List(items) => (match StandardAll(root, items, fuel) case None => None case Some(xs) => Some(List(xs)))
      case Object(fields) =>
        (match ReferenceOf(fields)
         case Some(reference) => StandardBeside(root, fields, reference, fuel)
         case None => StandardObject(root, fields, fuel))
      case _ => Some(v)
  }

  function StandardBeside(root: Json, fields: Dict<string, Json>, reference: string, fuel: nat): Option<Json>
    decreases fuel, SizeFields(fields), 3
  {
    if fuel == 0 || !IsLocal(reference) then None
    else match Resolve(root, reference)
      case None => None
      case Some(target) =>
        match Standard(root, target, SchemaAt, fuel - 1)
        case None => None
        case Some(t) =>
          if KeepsNone(fields) then Some(t)
          else match StandardFields(root, fields, fuel) case None => None case Some(fs) => Some(Object(fs + [("$ref", t)]))
  }

  function StandardObject(root: Json, fields: Dict<string, Json>, fuel: nat): Option<Json>
    decreases fuel, SizeFields(fields), 2
  {
    match AlternativesOf(fields)
    case Some(alternatives) =>
      FieldFacts(fields, "anyOf");
      (match StandardAll(root, alternatives, fuel)
       case None => None
       case Some(unfolded) =>
         if Decimal(alternatives, unfolded).Some? then Decimal(alternatives, unfolded) else StandardKept(root, fields, fuel))
    case None => StandardKept(root, fields, fuel)
  }

  function StandardKept(root: Json, fields: Dict<string, Json>, fuel: nat): Option<Json>
    decreases fuel, SizeFields(fields), 1
  {
    match StandardFields(root, fields, fuel) case None => None case Some(fs) => Some(Object(fs))
  }

  function StandardAll(root: Json, items: seq<Json>, fuel: nat): Option<seq<Json>>
    decreases fuel, SizeAll(items), 1
  {
    if items == [] then Some([])
    else match (Standard(root, items[0], SchemaAt, fuel), StandardAll(root, items[1..], fuel))
      case (Some(first), Some(rest)) => Some([first] + rest)
      case _ => None
  }

  function StandardFields(root: Json, fields: Dict<string, Json>, fuel: nat): Option<Dict<string, Json>>
    decreases fuel, SizeFields(fields), 0
  {
    if fields == [] then Some([])
    else
      FirstField(fields);
      if Dropped(fields[0].0) then StandardFields(root, fields[1..], fuel)
      else match (Standard(root, fields[0].1, PositionOf(fields[0].0), fuel), StandardFields(root, fields[1..], fuel))
      case (Some(first), Some(rest)) => Some([(fields[0].0, first)] + rest)
      case _ => None
  }

  function StandardNames(root: Json, fields: Dict<string, Json>, fuel: nat): Option<Dict<string, Json>>
    decreases fuel, SizeFields(fields), 0
  {
    if fields == [] then Some([])
    else
      FirstField(fields);
      if !fields[0].1.Object? && !fields[0].1.Boolean? then None
      else match (Standard(root, fields[0].1, SchemaAt, fuel), StandardNames(root, fields[1..], fuel))
      case (Some(first), Some(rest)) => Some([(fields[0].0, first)] + rest)
      case _ => None
  }

  // ---- the schemas on which both agree ------------------------------------------------------

  /** No name that is reached is called like an omitted keyword or `$ref`, nothing that is kept
      stands beside a reference, and no data looks like a schema. */
  ghost predicate Regular(root: Json, v: Json, at: Position, fuel: nat)
    decreases fuel, Size(v), 3
  {
    match at
    case DataAt => Clean(v)
    case NamesAt => v.Object? && RegularNames(root, v.fields, fuel)
    case SchemaAt =>
      match v
      case List(items) => RegularAll(root, items, fuel)
      case Object(fields) =>
        (match ReferenceOf(fields)
         case Some(reference) =>
           && KeepsNone(fields) && fuel > 0 && IsLocal(reference) && Resolve(root, reference).Some?
           && Regular(root, Resolve(root, reference).value, SchemaAt, fuel - 1)
         case None => RegularFields(root, fields, fuel))
      case _ => true
  }

  ghost predicate RegularAll(root: Json, items: seq<Json>, fuel: nat)
    decreases fuel, SizeAll(items), 1
  {
    items == [] || (Regular(root, items[0], SchemaAt, fuel) && RegularAll(root, items[1..], fuel))
  }

  ghost predicate RegularFields(root: Json, fields: Dict<string, Json>, fuel: nat)
    decreases fuel, SizeFields(fields), 0
  {
    fields == [] ||
    (FirstField(fields);
     (Dropped(fields[0].0) || Regular(root, fields[0].1, PositionOf(fields[0].0), fuel)) && RegularFields(root, fields[1..], fuel))
  }

  ghost predicate RegularNames(root: Json, fields: Dict<string, Json>, fuel: nat)
    decreases fuel, SizeFields(fields), 0
  {
    fields == [] ||
    (FirstField(fields);
     !Dropped(fields[0].0) && Regular(root, fields[0].1, SchemaAt, fuel) && RegularNames(root, fields[1..], fuel))
  }

  // ---- regular schemas are unfolded as the standard says ------------------------------------

  lemma {:induction false} CleanKeys(fields: Dict<string, Json>, key: string)
    requires CleanFields(fields) && Dropped(key)
    ensures Get(fields, key).None?
    decreases |fields|
  {
    if fields != [] {
      assert CleanField(fields[0]);
      CleanKeys(fields[1..], key);
    }
  }

  lemma {:induction false} CleanText(items: seq<Json>)
    requires CleanAll(items)
    ensures Filter(IsPatternedText, items) == []
    decreases |items|
  {
    if items != [] {
      if items[0].Object? { CleanKeys(items[0].fields, "pattern"); }
      CleanText(items[1..]);
    }
  }

  /** Clean data is left as it is. */
  lemma {:induction false} CleanIsKept(root: Json, v: Json, fuel: nat)
    requires Clean(v)
    ensures Unfold(root, v, fuel) == Some(v)
    decreases Size(v), 1
  {
    match v
    case List(items) => CleanAllKept(root, items, fuel);
    case Object(fields) =>
      CleanKeys(fields, "$ref");
      CleanFieldsKept(root, fields, fuel);
      if AlternativesOf(fields).Some? {
        var alternatives := AlternativesOf(fields).value;
        FieldFacts(fields, "anyOf");
        CleanGet(fields, "anyOf");
        CleanAllKept(root, alternatives, fuel);
        CleanText(alternatives);
        assert Decimal(alternatives, alternatives).None?;
      }
      assert UnfoldObject(root, fields, fuel) == UnfoldKept(root, fields, fuel);
    case _ =>
  }

  lemma {:induction false} PlainObject(root: Json, fields: Dict<string, Json>, fuel: nat)
    requires ReferenceOf(fields).None? && AlternativesOf(fields).None?
    ensures Unfold(root, Object(fields), fuel) == UnfoldKept(root, fields, fuel)
  {
  }

  lemma {:induction false} CleanGet(fields: Dict<string, Json>, key: string)
    requires CleanFields(fields) && Has(fields, key)
    ensures Clean(Get(fields, key).value)
    decreases |fields|
  {
    assert CleanField(fields[0]);
    if fields[0].0 != key { CleanGet(fields[1..], key); }
  }

  lemma {:induction false} CleanAllKept(root: Json, items: seq<Json>, fuel: nat)
    requires CleanAll(items)
    ensures UnfoldAll(root, items, fuel) == Some(items)
    decreases SizeAll(items), 0
  {
    if items != [] {
      CleanIsKept(root, items[0], fuel);
      CleanAllKept(root, items[1..], fuel);
      assert [items[0]] + items[1..] == items;
    }
  }

  lemma {:induction false} CleanFieldsKept(root: Json, fields: Dict<string, Json>, fuel: nat)
    requires CleanFields(fields)
    ensures UnfoldFields(root, fields, fuel) == Some(fields)
    decreases SizeFields(fields), 0
  {
    if fields != [] {
      FirstField(fields);
      assert CleanField(fields[0]);
      CleanIsKept(root, fields[0].1, fuel);
      CleanFieldsKept(root, fields[1..], fuel);
      assert [(fields[0].0, fields[0].1)] + fields[1..] == fields;
    }
  }

  lemma {:induction false} RegularIsUnfolded(root: Json, v: Json, at: Position, fuel: nat)
    requires Standard(root, v, at, fuel).Some? && Regular(root, v, at, fuel)
    ensures Unfold(root, v, fuel) == Standard(root, v, at, fuel)
    decreases fuel, Size(v), 3
  {
    match at
    case DataAt => CleanIsKept(root, v, fuel);
    case NamesAt =>
      NamesAreFields(root, v.fields, fuel);
      PlainObject(root, v.fields, fuel);
      RegularNamesUnfolded(root, v.fields, fuel);
    case SchemaAt =>
      match v
      case List(items) => RegularAllUnfolded(root, items, fuel);
      case Object(fields) =>
        if ReferenceOf(fields).Some? {
          RegularIsUnfolded(root, Resolve(root, ReferenceOf(fields).value).value, SchemaAt, fuel - 1);
        } else {
          RegularObjectUnfolded(root, fields, fuel);
        }
      case _ =>
  }

  lemma {:induction false} RegularObjectUnfolded(root: Json, fields: Dict<string, Json>, fuel: nat)
    requires StandardObject(root, fields, fuel).Some? && RegularFields(root, fields, fuel)
    ensures UnfoldObject(root, fields, fuel) == StandardObject(root, fields, fuel)
    decreases fuel, SizeFields(fields), 2
  {
    if AlternativesOf(fields).Some? {
      var alternatives := AlternativesOf(fields).value;
      FieldFacts(fields, "anyOf");
      RegularGet(root, fields, "anyOf", fuel);
      RegularAllUnfolded(root, alternatives, fuel);
      if Decimal(alternatives, StandardAll(root, alternatives, fuel).value).None? { RegularFieldsUnfolded(root, fields, fuel); }
    } else {
      RegularFieldsUnfolded(root, fields, fuel);
    }
  }

  lemma {:induction false} RegularGet(root: Json, fields: Dict<string, Json>, key: string, fuel: nat)
    requires RegularFields(root, fields, fuel) && Has(fields, key) && !Dropped(key)
    ensures Regular(root, Get(fields, key).value, PositionOf(key), fuel)
    decreases |fields|
  {
    if fields[0].0 != key { RegularGet(root, fields[1..], key, fuel); }
  }

  lemma {:induction false} RegularAllUnfolded(root: Json, items: seq<Json>, fuel: nat)
    requires StandardAll(root, items, fuel).Some? && RegularAll(root, items, fuel)
    ensures UnfoldAll(root, items, fuel) == StandardAll(root, items, fuel)
    decreases fuel, SizeAll(items), 1
  {
    if items != [] {
      RegularIsUnfolded(root, items[0], SchemaAt, fuel);
      RegularAllUnfolded(root, items[1..], fuel);
    }
  }

  lemma {:induction false} RegularFieldsUnfolded(root: Json, fields: Dict<string, Json>, fuel: nat)
    requires StandardFields(root, fields, fuel).Some? && RegularFields(root, fields, fuel)
    ensures UnfoldFields(root, fields, fuel) == StandardFields(root, fields, fuel)
    decreases fuel, SizeFields(fields), 0
  {
    if fields != [] {
      FirstField(fields);
      if !Dropped(fields[0].0) { RegularIsUnfolded(root, fields[0].1, PositionOf(fields[0].0), fuel); }
      RegularFieldsUnfolded(root, fields[1..], fuel);
    }
  }

  lemma {:induction false} RegularNamesUnfolded(root: Json, fields: Dict<string, Json>, fuel: nat)
    requires StandardNames(root, fields, fuel).Some? && RegularNames(root, fields, fuel)
    ensures UnfoldFields(root, fields, fuel) == StandardNames(root, fields, fuel)
    decreases fuel, SizeFields(fields), 0
  {
    if fields != [] {
      FirstField(fields);
      RegularIsUnfolded(root, fields[0].1, SchemaAt, fuel);
      RegularNamesUnfolded(root, fields[1..], fuel);
    }
  }

  /** Names that are regular are not mistaken for keywords. */
  lemma {:induction false} NamesAreFields(root: Json, fields: Dict<string, Json>, fuel: nat)
    requires StandardNames(root, fields, fuel).Some? && RegularNames(root, fields, fuel)
    ensures Get(fields, "$ref").None? && AlternativesOf(fields).None?
    decreases |fields|
  {
    if fields != [] { NamesAreFields(root, fields[1..], fuel); }
  }

  // ---- the standard's unfolding is clean only for regular schemas ---------------------------

  /** No alternatives spell a decimal. */
  predicate NoDecimal(v: Json) {
    match v
    case List(items) => NoDecimalAll(items)
    case Object(fields) =>
      (AlternativesOf(fields).Some? ==> Filter(IsPatternedText, AlternativesOf(fields).value) == []) && NoDecimalFields(fields)
    case _ => true
  }

  predicate NoDecimalAll(items: seq<Json>) {
    items == [] || (NoDecimal(items[0]) && NoDecimalAll(items[1..]))
  }

  predicate NoDecimalFields(fields: Dict<string, Json>) {
    fields == [] || (NoDecimalField(fields[0]) && NoDecimalFields(fields[1..]))
  }

  predicate NoDecimalField(field: (string, Json)) {
    NoDecimal(field.1)
  }

  lemma {:induction false} NoDecimalGet(fields: Dict<string, Json>, key: string)
    requires NoDecimalFields(fields) && Has(fields, key)
    ensures NoDecimal(Get(fields, key).value)
    decreases |fields|
  {
    assert NoDecimalField(fields[0]);
    if fields[0].0 != key { NoDecimalGet(fields[1..], key); }
  }

  lemma {:induction false} NoDecimalFollow(v: Json, path: seq<string>)
    requires NoDecimal(v) && Follow(v, path).Some?
    ensures NoDecimal(Follow(v, path).value)
    decreases |path|
  {
    if path != [] {
      NoDecimalGet(v.fields, path[0]);
      NoDecimalFollow(Get(v.fields, path[0]).value, path[1..]);
    }
  }

  lemma {:induction false} CleanIsRegular(root: Json, v: Json, at: Position, fuel: nat)
    requires Standard(root, v, at, fuel).Some? && Clean(Standard(root, v, at, fuel).value) && NoDecimal(root) && NoDecimal(v)
    ensures Regular(root, v, at, fuel)
    decreases fuel, Size(v), 3
  {
    match at
    case DataAt =>
    case NamesAt => CleanNamesRegular(root, v.fields, fuel);
    case SchemaAt =>
      match v
      case List(items) => CleanAllRegular(root, items, fuel);
      case Object(fields) =>
        if ReferenceOf(fields).Some? { CleanBeside(root, fields, ReferenceOf(fields).value, fuel); }
        else {
          NoDecimalKept(root, fields, fuel);
          CleanFieldsRegular(root, fields, fuel);
        }
      case _ =>
  }

  lemma {:induction false} NoDecimalKept(root: Json, fields: Dict<string, Json>, fuel: nat)
    requires StandardObject(root, fields, fuel).Some? && NoDecimal(Object(fields))
    ensures StandardObject(root, fields, fuel) == StandardKept(root, fields, fuel)
  {
    if AlternativesOf(fields).Some? { FieldFacts(fields, "anyOf"); }
  }

  lemma {:induction false} CleanBeside(root: Json, fields: Dict<string, Json>, reference: string, fuel: nat)
    requires StandardBeside(root, fields, reference, fuel).Some? && Clean(StandardBeside(root, fields, reference, fuel).value)
    requires NoDecimal(root)
    ensures KeepsNone(fields) && Regular(root, Resolve(root, reference).value, SchemaAt, fuel - 1)
    decreases fuel, SizeFields(fields), 3
  {
    if !KeepsNone(fields) {
      var fs := StandardFields(root, fields, fuel).value;
      LastClean(fs, ("$ref", Standard(root, Resolve(root, reference).value, SchemaAt, fuel - 1).value));
    }
    NoDecimalFollow(root, Split(reference[2..]));
    CleanIsRegular(root, Resolve(root, reference).value, SchemaAt, fuel - 1);
  }

  lemma {:induction false} LastClean(fields: Dict<string, Json>, last: (string, Json))
    requires CleanFields(fields + [last])
    ensures CleanField(last)
    decreases |fields|
  {
    if fields == [] {
      assert (fields + [last])[0] == last;
    } else {
      assert (fields + [last])[1..] == fields[1..] + [last];
      LastClean(fields[1..], last);
    }
  }

  lemma {:induction false} CleanAllRegular(root: Json, items: seq<Json>, fuel: nat)
    requires StandardAll(root, items, fuel).Some? && CleanAll(StandardAll(root, items, fuel).value) && NoDecimal(root) && NoDecimalAll(items)
    ensures RegularAll(root, items, fuel)
    decreases fuel, SizeAll(items), 1
  {
    if items != [] {
      var xs := StandardAll(root, items, fuel).value;
      assert xs[0] == Standard(root, items[0], SchemaAt, fuel).value && xs[1..] == StandardAll(root, items[1..], fuel).value;
      CleanIsRegular(root, items[0], SchemaAt, fuel);
      CleanAllRegular(root, items[1..], fuel);
    }
  }

  lemma {:induction false} CleanFieldsRegular(root: Json, fields: Dict<string, Json>, fuel: nat)
    requires StandardFields(root, fields, fuel).Some? && CleanFields(StandardFields(root, fields, fuel).value)
    requires NoDecimal(root) && NoDecimalFields(fields)
    ensures RegularFields(root, fields, fuel)
    decreases fuel, SizeFields(fields), 0
  {
    if fields != [] {
      FirstField(fields);
      assert NoDecimalField(fields[0]);
      if !Dropped(fields[0].0) {
        var fs := StandardFields(root, fields, fuel).value;
        assert fs[1..] == StandardFields(root, fields[1..], fuel).value && CleanField(fs[0]);
        CleanIsRegular(root, fields[0].1, PositionOf(fields[0].0), fuel);
      }
      CleanFieldsRegular(root, fields[1..], fuel);
    }
  }

  lemma {:induction false} CleanNamesRegular(root: Json, fields: Dict<string, Json>, fuel: nat)
    requires StandardNames(root, fields, fuel).Some? && CleanFields(StandardNames(root, fields, fuel).value)
    requires NoDecimal(root) && NoDecimalFields(fields)
    ensures RegularNames(root, fields, fuel)
    decreases fuel, SizeFields(fields), 0
  {
    if fields != [] {
      FirstField(fields);
      assert NoDecimalField(fields[0]);
      var fs := StandardNames(root, fields, fuel).value;
      assert fs[1..] == StandardNames(root, fields[1..], fuel).value && CleanField(fs[0]);
      CleanIsRegular(root, fields[0].1, SchemaAt, fuel);
      CleanNamesRegular(root, fields[1..], fuel);
    }
  }

  /** A schema that unfolds by the standard is simplified to that unfolding if it is regular; and only
      then, unless alternatives that spell a decimal hide what else stands in them. */
  lemma {:induction false} StandardExactly(root: Json, n: nat)
    requires Standard(root, root, SchemaAt, n).Some?
    ensures Regular(root, root, SchemaAt, n) ==> Simplify(root, root, {}) == Ok(Standard(root, root, SchemaAt, n).value)
    ensures NoDecimal(root) ==>
      (Simplify(root, root, {}) == Ok(Standard(root, root, SchemaAt, n).value) <==> Regular(root, root, SchemaAt, n))
  {
    if Regular(root, root, SchemaAt, n) {
      RegularIsUnfolded(root, root, SchemaAt, n);
      SimplifiesExactly(root);
    }
    if NoDecimal(root) && Simplify(root, root, {}) == Ok(Standard(root, root, SchemaAt, n).value) {
      CleanIsRegular(root, root, SchemaAt, n);
    }
  }

  // ---- examples -----------------------------------------------------------------------------

  /** Keywords are told by name alone: a property that is called like an annotation is lost, although
      it may stay required. */
  lemma PropertyNamedTitleIsLost()
    ensures var properties := Object([("title", Object([("type", Text("string"))]))]);
      var schema := Object([("properties", properties), ("required", List([Text("title")]))]);
      CompatibleSchema(schema) == Ok(Object([("properties", Object([])), ("required", List([Text("title")]))]))
  {
    var properties := Object([("title", Object([("type", Text("string"))]))]);
    var fields := [("properties", properties), ("required", List([Text("title")]))];
    var schema := Object(fields);
    PairGet(fields[0], fields[1], "$ref");
    PairGet(fields[0], fields[1], "anyOf");
    assert properties.fields[1..] == [];
    assert SimplifyFields(schema, properties.fields, {}) == Ok([]);
    assert Simplify(schema, properties, {}) == Ok(Object([]));
    var names := [Text("title")];
    assert names[1..] == [] && SimplifyAll(schema, names[1..], {}) == Ok([]);
    assert Simplify(schema, names[0], {}) == Ok(Text("title"));
    assert [Text("title")] + [] == names;
    assert SimplifyAll(schema, names, {}) == Ok(names);
    var last := fields[1..];
    assert last == [("required", List(names))] && last[1..] == [];
    assert SimplifyFields(schema, last[1..], {}) == Ok([]);
    assert SimplifyFields(schema, last, {}) == Ok([("required", List(names))] + []);
    assert [("required", List(names))] + [] == [("required", List(names))];
    assert [("properties", Object([]))] + [("required", List(names))] == [("properties", Object([])), ("required", List(names))];
  }

  lemma {:induction false} PairGet(a: (string, Json), b: (string, Json), key: string)
    ensures Get([a, b], key) == if a.0 == key then Some(a.1) else if b.0 == key then Some(b.1) else None
  {
    assert [a, b][1..] == [b] && [b][1..] == [];
    assert Get([b], key) == if b.0 == key then Some(b.1) else None;
  }

  lemma {:induction false} SplitPlain(s: string)
    requires '/' !in s
    ensures Split(s) == [s]
    decreases |s|
  {
    if s != "" {
      SplitPlain(s[1..]);
      assert [s[0]] + s[1..] == s;
    }
  }

  lemma {:induction false} OneGet(a: (string, Json), key: string)
    ensures Get([a], key) == if a.0 == key then Some(a.1) else None
  {
    assert [a][1..] == [];
  }

  lemma {:induction false} WordsStay(root: Json, words: Json, trail: set<string>)
    requires words == Object([("type", Text("string"))])
    ensures Refs(words) == {} && Simplify(root, words, trail) == Ok(words)
  {
    var fields := words.fields;
    OneGet(fields[0], "$ref");
    OneGet(fields[0], "anyOf");
    assert fields[1..] == [];
    FirstField(fields);
    assert SimplifyFields(root, fields[1..], trail) == Ok([]);
    assert SimplifyFields(root, fields, trail) == Ok([("type", Text("string"))] + []);
    assert [("type", Text("string"))] + [] == fields;
  }

  /** One level of a reference. */
  lemma {:induction false} Dereferenced(root: Json, fields: Dict<string, Json>, reference: string, target: Json)
    requires ReferenceOf(fields) == Some(reference) && IsLocal(reference) && Resolve(root, reference) == Some(target)
    requires reference in Refs(root) && Refs(Object(fields)) <= Refs(root) && Refs(target) <= Refs(root)
    ensures Simplify(root, Object(fields), {}) == Simplify(root, target, {reference})
  {
    assert {} + {reference} == {reference};
  }

  /** What stands beside a reference is lost: here that one of the words is "x". */
  lemma {:induction false} SiblingOfReferenceIsLost()
    ensures var words, one := Object([("type", Text("string"))]), Object([("$ref", Text("#/items")), ("const", Text("x"))]);
      CompatibleSchema(Object([("items", words), ("contains", one)])) == Ok(Object([("items", words), ("contains", words)]))
  {
    var words, one := Object([("type", Text("string"))]), Object([("$ref", Text("#/items")), ("const", Text("x"))]);
    KeptNames();
    LostBeside("items", "contains", words, one);
  }

  lemma KeptNames()
    ensures !Dropped("items") && !Dropped("contains")
    ensures "items" != "anyOf" && "contains" != "anyOf"
    ensures '/' !in "items" && "#/" + "items" == "#/items"
  {
  }

  lemma {:induction false} LostBeside(a: string, b: string, words: Json, one: Json)
    requires one == Object([("$ref", Text("#/" + a)), ("const", Text("x"))]) && words == Object([("type", Text("string"))])
    requires !Dropped(a) && !Dropped(b) && a != "anyOf" && b != "anyOf" && '/' !in a
    ensures CompatibleSchema(Object([(a, words), (b, one)])) == Ok(Object([(a, words), (b, words)]))
  {
    var root := Object([(a, words), (b, one)]);
    PairRefs((a, words), (b, one));
    WordsStay(root, words, {});
    OneSimplified(root, a, b, words, one);
    PairCompatible((a, words), (b, one), words, words);
  }

  lemma {:induction false} PairCompatible(a: (string, Json), b: (string, Json), x: Json, y: Json)
    requires !Dropped(a.0) && !Dropped(b.0) && a.0 != "anyOf" && b.0 != "anyOf" && Refs(Object([a, b])) == Refs(a.1) + Refs(b.1)
    requires Simplify(Object([a, b]), a.1, {}) == Ok(x) && Simplify(Object([a, b]), b.1, {}) == Ok(y)
    ensures CompatibleSchema(Object([a, b])) == Ok(Object([(a.0, x), (b.0, y)]))
  {
    PairGet(a, b, "$ref");
    PairGet(a, b, "anyOf");
    PairRefs(a, b);
    var fields := [a, b];
    PairSimplified(Object(fields), a, b);
    assert ReferenceOf(fields).None? && AlternativesOf(fields).None?;
    assert SimplifyObject(Object(fields), fields, {}) == Ok(Object([(a.0, x), (b.0, y)]));
  }

  lemma {:induction false} OneSimplified(root: Json, a: string, b: string, words: Json, one: Json)
    requires one == Object([("$ref", Text("#/" + a)), ("const", Text("x"))]) && root == Object([(a, words), (b, one)]) && '/' !in a
    requires words == Object([("type", Text("string"))]) && Refs(root) == Refs(words) + Refs(one)
    ensures Simplify(root, one, {}) == Ok(words)
  {
    PairGet(one.fields[0], one.fields[1], "$ref");
    FirstResolves(root, a, words);
    Dereferenced(root, one.fields, "#/" + a, words);
    WordsStay(root, words, {"#/" + a});
  }

  lemma {:induction false} FirstResolves(root: Json, a: string, target: Json)
    requires root.Object? && root.fields != [] && root.fields[0] == (a, target) && '/' !in a
    ensures IsLocal("#/" + a) && Resolve(root, "#/" + a) == Some(target)
  {
    assert ("#/" + a)[2..] == a;
    SplitPlain(a);
    assert [a][1..] == [] && Get(root.fields, a) == Some(target);
    assert Follow(root, [a]) == Follow(target, []);
  }

  lemma {:induction false} PairRefs(a: (string, Json), b: (string, Json))
    ensures RefsFields([a, b]) == Refs(a.1) + Refs(b.1)
    ensures a.0 != "$ref" && b.0 != "$ref" ==> Refs(Object([a, b])) == Refs(a.1) + Refs(b.1)
  {
    assert [a, b][1..] == [b] && [b][1..] == [];
    FirstField([a, b]);
    FirstField([b]);
    PairGet(a, b, "$ref");
  }

  lemma {:induction false} PairSimplified(root: Json, a: (string, Json), b: (string, Json))
    requires Refs(a.1) <= Refs(root) && Refs(b.1) <= Refs(root) && !Dropped(a.0) && !Dropped(b.0)
    requires Simplify(root, a.1, {}).Ok? && Simplify(root, b.1, {}).Ok? && RefsFields([a, b]) <= Refs(root)
    ensures SimplifyFields(root, [a, b], {}) == Ok([(a.0, Simplify(root, a.1, {}).value), (b.0, Simplify(root, b.1, {}).value)])
  {
    var last := [b];
    assert [a, b][1..] == last && last[1..] == [];
    FirstField([a, b]);
    FirstField(last);
    assert SimplifyFields(root, last[1..], {}) == Ok([]);
    var y := (b.0, Simplify(root, b.1, {}).value);
    assert SimplifyFields(root, last, {}) == Ok([y] + []);
    assert [y] + [] == [y];
    var x := (a.0, Simplify(root, a.1, {}).value);
    assert [x] + [y] == [x, y];
  }
}
