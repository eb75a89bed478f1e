/** The reduction of a JSON Schema to a portable subset: references unfolded, annotations dropped,
    a decimal's alternatives collapsed. */
module SchemaSimplifier {
  import opened Dicts

  datatype Json =
    | Null | Boolean(b: bool) | Number(n: real) | Text(s: string)
    | List(items: seq<Json>)
    | Object(fields: Dict<string, Json>)

  datatype SchemaFault = UnsupportedReference(reference: string) | UnresolvableReference(of: string) | RootNotObject

  const Omitted: set<string> := {
    "$defs", "title", "description", "default", "examples", "minimum", "maximum", "exclusiveMinimum",
    "exclusiveMaximum", "minLength", "maxLength", "minItems", "maxItems", "pattern"
  }

  predicate Dropped(key: string) {
    key in Omitted || key == "$ref"
  }

  // ---- size and references ------------------------------------------------------------------

  function Size(v: Json): (n: nat)
    ensures n > 0
  {
    match v
    case List(items) => 1 + SizeAll(items)
    case Object(fields) => 1 + SizeFields(fields)
    case _ => 1
  }

  function SizeAll(items: seq<Json>): nat {
    if items == [] then 0 else Size(items[0]) + 1 + SizeAll(items[1..])
  }

  function SizeFields(fields: Dict<string, Json>): nat {
    if fields == [] then 0 else SizeField(fields[0]) + 1 + SizeFields(fields[1..])
  }

  function SizeField(field: (string, Json)): nat {
    Size(field.1)
  }

  /** `value.get("$ref")` when it is a string. */
  function ReferenceOf(fields: Dict<string, Json>): Option<string> {
    var r := Get(fields, "$ref");
    if r.Some? && r.value.Text? then Some(r.value.s) else None
  }

  /** Every reference written anywhere in a schema. */
  function Refs(v: Json): set<string> {
    match v
    case List(items) => RefsAll(items)
    case Object(fields) => (match ReferenceOf(fields) case Some(s) => {s} case None => {}) + RefsFields(fields)
    case _ => {}
  }

  function RefsAll(items: seq<Json>): set<string> {
    if items == [] then {} else Refs(items[0]) + RefsAll(items[1..])
  }

  function RefsFields(fields: Dict<string, Json>): set<string> {
    if fields == [] then {} else RefsField(fields[0]) + RefsFields(fields[1..])
  }

  function RefsField(field: (string, Json)): set<string> {
    Refs(field.1)
  }

  lemma {:induction false} FirstField(fields: Dict<string, Json>)
    requires fields != []
    ensures Size(fields[0].1) < SizeFields(fields) && SizeFields(fields[1..]) < SizeFields(fields)
    ensures RefsFields(fields) == Refs(fields[0].1) + RefsFields(fields[1..])
  {
    assert SizeField(fields[0]) == Size(fields[0].1) && RefsField(fields[0]) == Refs(fields[0].1);
  }

  lemma {:induction false} FieldFacts(fields: Dict<string, Json>, key: string)
    requires Has(fields, key)
    ensures Size(Get(fields, key).value) < SizeFields(fields) && Refs(Get(fields, key).value) <= RefsFields(fields)
    decreases |fields|
  {
    FirstField(fields);
    if fields[0].0 != key { FieldFacts(fields[1..], key); }
  }

  // ---- pointers -----------------------------------------------------------------------------

  function Split(s: string): (parts: seq<string>)
    ensures parts != []
  {
    if s == "" then [""]
    else
      var rest := Split(s[1..]);
      if s[0] == '/' then [""] + rest else [[s[0]] + rest[0]] + rest[1..]
  }

  function Follow(v: Json, path: seq<string>): Option<Json>
    decreases |path|
  {
    if path == [] then Some(v)
    else if !v.Object? then None
    else match Get(v.fields, path[0])
      case None => None
      case Some(child) => Follow(child, path[1..])
  }

  predicate IsLocal(reference: string) {
    |reference| >= 2 && reference[0] == '#' && reference[1] == '/'
  }

  function Resolve(root: Json, reference: string): Option<Json>
    requires IsLocal(reference)
  {
    Follow(root, Split(reference[2..]))
  }

  lemma {:induction false} FollowFacts(v: Json, path: seq<string>)
    requires Follow(v, path).Some?
    ensures Refs(Follow(v, path).value) <= Refs(v)
    decreases |path|
  {
    if path != [] {
      FieldFacts(v.fields, path[0]);
      FollowFacts(Get(v.fields, path[0]).value, path[1..]);
    }
  }

  lemma FewerLeft(all: set<string>, trail: set<string>, reference: string)
    requires reference in all && reference !in trail
    ensures |all - (trail + {reference})| < |all - trail|
  {
    assert all - (trail + {reference}) == (all - trail) - {reference};
  }

  // ---- simplification -----------------------------------------------------------------------

  predicate IsNumber(v: Json) {
    v.Object? && Get(v.fields, "type") == Some(Text("number"))
  }

  predicate IsPatternedText(v: Json) {
    v.Object? && Get(v.fields, "type") == Some(Text("string")) && Has(v.fields, "pattern")
  }

  function Filter(p: Json -> bool, items: seq<Json>): (kept: seq<Json>)
    ensures forall i :: 0 <= i < |kept| ==> kept[i] in items
  {
    if items == [] then [] else (if p(items[0]) then [items[0]] else []) + Filter(p, items[1..])
  }

  /** The number that stands for a decimal given as a number or as a patterned string. */
  function Decimal(alternatives: seq<Json>, simplified: seq<Json>): Option<Json> {
    var numeric := Filter(IsNumber, simplified);
    if |numeric| == 1 && Filter(IsPatternedText, alternatives) != [] then Some(numeric[0]) else None
  }

  function AlternativesOf(fields: Dict<string, Json>): Option<seq<Json>> {
    var a := Get(fields, "anyOf");
    if a.Some? && a.value.List? then Some(a.value.items) else None
  }

  /** At no depth a reference or an omitted keyword. */
  predicate Clean(v: Json) {
    match v
    case List(items) => CleanAll(items)
    case Object(fields) => CleanFields(fields)
    case _ => true
  }

  predicate CleanAll(items: seq<Json>) {
    items == [] || (Clean(items[0]) && CleanAll(items[1..]))
  }

  predicate CleanFields(fields: Dict<string, Json>) {
    fields == [] || (CleanField(fields[0]) && CleanFields(fields[1..]))
  }

  predicate CleanField(field: (string, Json)) {
    !Dropped(field.0) && Clean(field.1)
  }

  lemma {:induction false} CleanMember(items: seq<Json>, v: Json)
    requires CleanAll(items) && v in items
    ensures Clean(v)
    decreases |items|
  {
    if v != items[0] { CleanMember(items[1..], v); }
  }

  /** It terminates on every schema, cyclic ones included: a dereference uses up one of the
      references not yet on the trail, everything else shrinks the term. */
  function Simplify(root: Json, v: Json, trail: set<string>): (r: Result<Json, SchemaFault>)
    requires Refs(v) <= Refs(root)
    ensures r.Ok? ==> Clean(r.value)
    decreases |Refs(root) - trail|, Size(v)
  {
    match v
    case List(items) => (match SimplifyAll(root, items, trail) case Err(e) => Err(e) case Ok(xs) => Ok(List(xs)))
    case Object(fields) =>
      (match ReferenceOf(fields)
       case Some(reference) =>
         if !IsLocal(reference) || reference in trail then Err(UnsupportedReference(reference))
         else (match Resolve(root, reference)
           case None => Err(UnresolvableReference(reference))
           case Some(target) =>
             FollowFacts(root, Split(reference[2..]));
             FewerLeft(Refs(root), trail, reference);
             Simplify(root, target, trail + {reference}))
       case None => SimplifyObject(root, fields, trail))
    case _ => Ok(v)
  }

  function SimplifyObject(root: Json, fields: Dict<string, Json>, trail: set<string>): (r: Result<Json, SchemaFault>)
    requires RefsFields(fields) <= Refs(root)
    ensures r.Ok? ==> Clean(r.value)
    decreases |Refs(root) - trail|, SizeFields(fields), 1
  {
    match AlternativesOf(fields)
    case Some(alternatives) =>
      FieldFacts(fields, "anyOf");
      (match SimplifyAll(root, alternatives, trail)
       case Err(e) => Err(e)
       case Ok(simplified) =>
         match Decimal(alternatives, simplified)
         case Some(number) => CleanMember(simplified, number); Ok(number)
         case None =>
           match SimplifyFields(root, fields, trail) case Err(e) => Err(e) case Ok(fs) => Ok(Object(fs)))
    case None =>
      match SimplifyFields(root, fields, trail) case Err(e) => Err(e) case Ok(fs) => Ok(Object(fs))
  }

  function SimplifyAll(root: Json, items: seq<Json>, trail: set<string>): (r: Result<seq<Json>, SchemaFault>)
    requires RefsAll(items) <= Refs(root)
    ensures r.Ok? ==> CleanAll(r.value)
    decreases |Refs(root) - trail|, SizeAll(items)
  {
    if items == [] then Ok([])
    else match Simplify(root, items[0], trail)
      case Err(e) => Err(e)
      case Ok(first) =>
        match SimplifyAll(root, items[1..], trail)
        case Err(e) => Err(e)
        case Ok(rest) =>
          assert ([first] + rest)[1..] == rest;
          Ok([first] + rest)
  }

  function SimplifyFields(root: Json, fields: Dict<string, Json>, trail: set<string>): (r: Result<Dict<string, Json>, SchemaFault>)
    requires RefsFields(fields) <= Refs(root)
    ensures r.Ok? ==> CleanFields(r.value)
    decreases |Refs(root) - trail|, SizeFields(fields), 0
  {
    if fields == [] then Ok([])
    else
      FirstField(fields);
      if Dropped(fields[0].0) then SimplifyFields(root, fields[1..], trail)
      else match Simplify(root, fields[0].1, trail)
      case Err(e) => Err(e)
      case Ok(first) =>
        match SimplifyFields(root, fields[1..], trail)
        case Err(e) => Err(e)
        case Ok(rest) =>
          assert ([(fields[0].0, first)] + rest)[1..] == rest && CleanField((fields[0].0, first));
          Ok([(fields[0].0, first)] + rest)
  }

  function CompatibleSchema(schema: Json): (r: Result<Json, SchemaFault>)
    ensures r.Ok? ==> Clean(r.value) && r.value.Object?
  {
    match Simplify(schema, schema, {})
    case Err(e) => Err(e)
    case Ok(v) => if v.Object? then Ok(v) else Err(RootNotObject)
  }
}
