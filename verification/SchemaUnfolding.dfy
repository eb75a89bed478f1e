/** What the simplification computes: the schema with every reference replaced by what it points to,
    annotations dropped and decimals collapsed. The trail that detects cycles is exact. */
module SchemaUnfolding {
  import opened Dicts
  import opened SchemaSimplifier

  /** The tree in which every reference is replaced by its target, followed naively, as long as no
      path needs more than `fuel` replacements. */
  function Unfold(root: Json, v: Json, fuel: nat): Option<Json>
    decreases fuel, Size(v), 0
  {
    match v
    case List(items) => (match UnfoldAll(root, items, fuel) case None => None case Some(xs) => Some(List(xs)))
    case Object(fields) =>
      (match ReferenceOf(fields)
       case Some(reference) => if fuel == 0 then None else UnfoldReference(root, reference, fuel - 1)
       case None => UnfoldObject(root, fields, fuel))
    case _ => Some(v)
  }

  function UnfoldReference(root: Json, reference: string, fuel: nat): Option<Json>
    decreases fuel + 1, 0, 0
  {
    if !IsLocal(reference) then None
    else match Resolve(root, reference)
      case None => None
      case Some(target) => Unfold(root, target, fuel)
  }

  function UnfoldObject(root: Json, fields: Dict<string, Json>, fuel: nat): Option<Json>
    decreases fuel, SizeFields(fields), 2
  {
    match AlternativesOf(fields)
    case Some(alternatives) =>
      FieldFacts(fields, "anyOf");
      (match UnfoldAll(root, alternatives, fuel)
       case None => None
       case Some(unfolded) =>
         if Decimal(alternatives, unfolded).Some? then Decimal(alternatives, unfolded) else UnfoldKept(root, fields, fuel))
    case None => UnfoldKept(root, fields, fuel)
  }

  function UnfoldKept(root: Json, fields: Dict<string, Json>, fuel: nat): Option<Json>
    decreases fuel, SizeFields(fields), 1
  {
    match UnfoldFields(root, fields, fuel) case None => None case Some(fs) => Some(Object(fs))
  }

  function UnfoldAll(root: Json, items: seq<Json>, fuel: nat): Option<seq<Json>>
    decreases fuel, SizeAll(items), 1
  {
    if items == [] then Some([])
    else match (Unfold(root, items[0], fuel), UnfoldAll(root, items[1..], fuel))
      case (Some(first), Some(rest)) => Some([first] + rest)
      case _ => None
  }

  function UnfoldFields(root: Json, fields: Dict<string, Json>, fuel: nat): Option<Dict<string, Json>>
    decreases fuel, SizeFields(fields), 0
  {
    if fields == [] then Some([])
    else
      FirstField(fields);
      if Dropped(fields[0].0) then UnfoldFields(root, fields[1..], fuel)
      else match (Unfold(root, fields[0].1, fuel), UnfoldFields(root, fields[1..], fuel))
      case (Some(first), Some(rest)) => Some([(fields[0].0, first)] + rest)
      case _ => None
  }

  // ---- success unfolds ----------------------------------------------------------------------

  /** What is simplified is the unfolding, and each path uses each reference at most once. */
  lemma {:induction false} SimplifiedIsUnfolded(root: Json, v: Json, trail: set<string>)
    requires Refs(v) <= Refs(root) && Simplify(root, v, trail).Ok?
    ensures Unfold(root, v, |Refs(root) - trail|) == Some(Simplify(root, v, trail).value)
    decreases |Refs(root) - trail|, Size(v), 3
  {
    match v
    case List(items) => SimplifiedAll(root, items, trail);
    case Object(fields) =>
      if ReferenceOf(fields).Some? { SimplifiedReference(root, fields, ReferenceOf(fields).value, trail); }
      else { SimplifiedObject(root, fields, trail); }
    case _ =>
  }

  lemma {:induction false} SimplifiedReference(root: Json, fields: Dict<string, Json>, reference: string, trail: set<string>)
    requires Refs(Object(fields)) <= Refs(root) && ReferenceOf(fields) == Some(reference)
    requires Simplify(root, Object(fields), trail).Ok?
    ensures |Refs(root) - trail| > 0
    ensures UnfoldReference(root, reference, |Refs(root) - trail| - 1) == Some(Simplify(root, Object(fields), trail).value)
    decreases |Refs(root) - trail|, Size(Object(fields)), 1
  {
    FollowFacts(root, Split(reference[2..]));
    assert reference in Refs(root);
    FewerLeft(Refs(root), trail, reference);
    assert Refs(root) - (trail + {reference}) == (Refs(root) - trail) - {reference};
    SimplifiedIsUnfolded(root, Resolve(root, reference).value, trail + {reference});
  }

  lemma {:induction false} SimplifiedObject(root: Json, fields: Dict<string, Json>, trail: set<string>)
    requires RefsFields(fields) <= Refs(root) && SimplifyObject(root, fields, trail).Ok?
    ensures UnfoldObject(root, fields, |Refs(root) - trail|) == Some(SimplifyObject(root, fields, trail).value)
    decreases |Refs(root) - trail|, SizeFields(fields), 1
  {
    if AlternativesOf(fields).Some? {
      var alternatives := AlternativesOf(fields).value;
      FieldFacts(fields, "anyOf");
      SimplifiedAll(root, alternatives, trail);
      if Decimal(alternatives, SimplifyAll(root, alternatives, trail).value).None? { SimplifiedFields(root, fields, trail); }
    } else {
      SimplifiedFields(root, fields, trail);
    }
  }

  lemma {:induction false} SimplifiedAll(root: Json, items: seq<Json>, trail: set<string>)
    requires RefsAll(items) <= Refs(root) && SimplifyAll(root, items, trail).Ok?
    ensures UnfoldAll(root, items, |Refs(root) - trail|) == Some(SimplifyAll(root, items, trail).value)
    decreases |Refs(root) - trail|, SizeAll(items), 0
  {
    if items != [] {
      SimplifiedIsUnfolded(root, items[0], trail);
      SimplifiedAll(root, items[1..], trail);
    }
  }

  lemma {:induction false} SimplifiedFields(root: Json, fields: Dict<string, Json>, trail: set<string>)
    requires RefsFields(fields) <= Refs(root) && SimplifyFields(root, fields, trail).Ok?
    ensures UnfoldFields(root, fields, |Refs(root) - trail|) == Some(SimplifyFields(root, fields, trail).value)
    decreases |Refs(root) - trail|, SizeFields(fields), 0
  {
    if fields != [] {
      FirstField(fields);
      SimplifiedFields(root, fields[1..], trail);
      if !Dropped(fields[0].0) { SimplifiedIsUnfolded(root, fields[0].1, trail); }
    }
  }

  // ---- more fuel changes nothing ------------------------------------------------------------

  lemma {:induction false} MoreFuel(root: Json, v: Json, k: nat, n: nat)
    requires k <= n && Unfold(root, v, k).Some?
    ensures Unfold(root, v, n) == Unfold(root, v, k)
    decreases k, Size(v), 3
  {
    match v
    case List(items) => MoreFuelAll(root, items, k, n);
    case Object(fields) =>
      if ReferenceOf(fields).Some? {
        MoreFuel(root, Resolve(root, ReferenceOf(fields).value).value, k - 1, n - 1);
      } else {
        MoreFuelObject(root, fields, k, n);
      }
    case _ =>
  }

  lemma {:induction false} MoreFuelObject(root: Json, fields: Dict<string, Json>, k: nat, n: nat)
    requires k <= n && UnfoldObject(root, fields, k).Some?
    ensures UnfoldObject(root, fields, n) == UnfoldObject(root, fields, k)
    decreases k, SizeFields(fields), 1
  {
    if AlternativesOf(fields).Some? {
      var alternatives := AlternativesOf(fields).value;
      FieldFacts(fields, "anyOf");
      MoreFuelAll(root, alternatives, k, n);
      if Decimal(alternatives, UnfoldAll(root, alternatives, k).value).None? { MoreFuelFields(root, fields, k, n); }
    } else {
      MoreFuelFields(root, fields, k, n);
    }
  }

  lemma {:induction false} MoreFuelAll(root: Json, items: seq<Json>, k: nat, n: nat)
    requires k <= n && UnfoldAll(root, items, k).Some?
    ensures UnfoldAll(root, items, n) == UnfoldAll(root, items, k)
    decreases k, SizeAll(items), 0
  {
    if items != [] {
      MoreFuel(root, items[0], k, n);
      MoreFuelAll(root, items[1..], k, n);
    }
  }

  lemma {:induction false} MoreFuelFields(root: Json, fields: Dict<string, Json>, k: nat, n: nat)
    requires k <= n && UnfoldFields(root, fields, k).Some?
    ensures UnfoldFields(root, fields, n) == UnfoldFields(root, fields, k)
    decreases k, SizeFields(fields), 0
  {
    if fields != [] {
      FirstField(fields);
      if !Dropped(fields[0].0) { MoreFuel(root, fields[0].1, k, n); }
      MoreFuelFields(root, fields[1..], k, n);
    }
  }

  // ---- unfolding simplifies -----------------------------------------------------------------

  /** The least fuel with which a reference unfolds. */
  lemma {:induction false} LeastFuel(root: Json, reference: string, k: nat) returns (n: nat)
    requires UnfoldReference(root, reference, k).Some?
    ensures n <= k && UnfoldReference(root, reference, n).Some?
    ensures n == 0 || UnfoldReference(root, reference, n - 1).None?
    decreases k
  {
    if k == 0 || UnfoldReference(root, reference, k - 1).None? { n := k; }
    else { n := LeastFuel(root, reference, k - 1); }
  }

  lemma {:induction false} LessFuel(root: Json, reference: string, k: nat, n: nat)
    requires k <= n && UnfoldReference(root, reference, n).None?
    ensures UnfoldReference(root, reference, k).None?
  {
    if UnfoldReference(root, reference, k).Some? {
      MoreFuel(root, Resolve(root, reference).value, k, n);
    }
  }

  /** The references on the trail need more fuel than is left. */
  ghost predicate Spent(root: Json, trail: set<string>, k: nat) {
    k == 0 || forall reference :: reference in trail ==> UnfoldReference(root, reference, k - 1).None?
  }

  /** A schema that unfolds at all is never mistaken for a cyclic one. */
  lemma {:induction false} UnfoldedIsSimplified(root: Json, v: Json, trail: set<string>, k: nat)
    requires Refs(v) <= Refs(root) && Unfold(root, v, k).Some? && Spent(root, trail, k)
    ensures Simplify(root, v, trail).Ok?
    decreases k, Size(v), 3
  {
    match v
    case List(items) => UnfoldedAll(root, items, trail, k);
    case Object(fields) =>
      if ReferenceOf(fields).Some? { UnfoldedReference(root, fields, ReferenceOf(fields).value, trail, k); }
      else { UnfoldedObject(root, fields, trail, k); }
    case _ =>
  }

  lemma {:induction false} UnfoldedReference(root: Json, fields: Dict<string, Json>, reference: string, trail: set<string>, k: nat)
    requires ReferenceOf(fields) == Some(reference) && Refs(Object(fields)) <= Refs(root)
    requires Unfold(root, Object(fields), k).Some? && Spent(root, trail, k)
    ensures Simplify(root, Object(fields), trail).Ok?
    decreases k, Size(Object(fields)), 1
  {
    var n := LeastFuel(root, reference, k - 1);
    FollowFacts(root, Split(reference[2..]));
    forall r | r in trail + {reference} && n > 0 ensures UnfoldReference(root, r, n - 1).None? {
      if r != reference { LessFuel(root, r, n - 1, k - 1); }
    }
    UnfoldedIsSimplified(root, Resolve(root, reference).value, trail + {reference}, n);
  }

  lemma {:induction false} UnfoldedObject(root: Json, fields: Dict<string, Json>, trail: set<string>, k: nat)
    requires RefsFields(fields) <= Refs(root) && UnfoldObject(root, fields, k).Some? && Spent(root, trail, k)
    ensures SimplifyObject(root, fields, trail).Ok?
    decreases k, SizeFields(fields), 1
  {
    if AlternativesOf(fields).Some? {
      var alternatives := AlternativesOf(fields).value;
      FieldFacts(fields, "anyOf");
      UnfoldedAll(root, alternatives, trail, k);
      SameAlternatives(root, alternatives, trail, k);
      if Decimal(alternatives, UnfoldAll(root, alternatives, k).value).None? { UnfoldedFields(root, fields, trail, k); }
    } else {
      UnfoldedFields(root, fields, trail, k);
    }
  }

  lemma {:induction false} SameAlternatives(root: Json, items: seq<Json>, trail: set<string>, k: nat)
    requires RefsAll(items) <= Refs(root) && UnfoldAll(root, items, k).Some? && SimplifyAll(root, items, trail).Ok?
    ensures SimplifyAll(root, items, trail).value == UnfoldAll(root, items, k).value
  {
    var n := |Refs(root) - trail|;
    SimplifiedAll(root, items, trail);
    if k <= n { MoreFuelAll(root, items, k, n); } else { MoreFuelAll(root, items, n, k); }
  }

  lemma {:induction false} UnfoldedAll(root: Json, items: seq<Json>, trail: set<string>, k: nat)
    requires RefsAll(items) <= Refs(root) && UnfoldAll(root, items, k).Some? && Spent(root, trail, k)
    ensures SimplifyAll(root, items, trail).Ok?
    decreases k, SizeAll(items), 0
  {
    if items != [] {
      UnfoldedIsSimplified(root, items[0], trail, k);
      UnfoldedAll(root, items[1..], trail, k);
    }
  }

  lemma {:induction false} UnfoldedFields(root: Json, fields: Dict<string, Json>, trail: set<string>, k: nat)
    requires RefsFields(fields) <= Refs(root) && UnfoldFields(root, fields, k).Some? && Spent(root, trail, k)
    ensures SimplifyFields(root, fields, trail).Ok?
    decreases k, SizeFields(fields), 0
  {
    if fields != [] {
      FirstField(fields);
      if !Dropped(fields[0].0) { UnfoldedIsSimplified(root, fields[0].1, trail, k); }
      UnfoldedFields(root, fields[1..], trail, k);
    }
  }

  /** The simplification succeeds exactly when the schema has a finite unfolding, and then is that
      unfolding. */
  lemma {:induction false} SimplifiesExactly(root: Json)
    ensures Simplify(root, root, {}).Ok? <==> exists k: nat :: Unfold(root, root, k).Some?
    ensures forall k: nat :: Unfold(root, root, k).Some? ==> Simplify(root, root, {}) == Ok(Unfold(root, root, k).value)
  {
    if Simplify(root, root, {}).Ok? { SimplifiedIsUnfolded(root, root, {}); }
    forall k: nat | Unfold(root, root, k).Some?
      ensures Simplify(root, root, {}) == Ok(Unfold(root, root, k).value)
    {
      UnfoldedIsSimplified(root, root, {}, k);
      SimplifiedIsUnfolded(root, root, {});
      var n := |Refs(root) - {}|;
      if k <= n { MoreFuel(root, root, k, n); } else { MoreFuel(root, root, n, k); }
    }
  }
}
