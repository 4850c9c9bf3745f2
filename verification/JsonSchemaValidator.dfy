/** The recursive validator, as the manifest code runs it. */
module JsonSchemaValidator {
  import opened Common
  import opened JsonPointer
  import opened JsonSchema

  /** Levels left at a depth. */
  function Fuel(depth: nat): nat {
    if depth > MAX_DEPTH then 0 else MAX_DEPTH + 1 - depth
  }

  predicate AllOf(re: Patterns, root: Json, branches: seq<Json>, v: Json, fuel: nat) {
    forall b | b in branches :: Accepts(re, root, b, v, fuel)
  }

  predicate AnyOf(re: Patterns, root: Json, branches: seq<Json>, v: Json, fuel: nat) {
    exists b | b in branches :: Accepts(re, root, b, v, fuel)
  }

  /** A property that is declared is held against its schema, another one against the additional schema, if that is one. */
  predicate PropertyMet(re: Patterns, root: Json, s: Fields, o: Fields, k: string, fuel: nat)
    requires k in o
  {
    if k in Properties(s) then Accepts(re, root, Properties(s)[k], o[k], fuel)
    else "additionalProperties" in s && !s["additionalProperties"].Bool? ==> Accepts(re, root, s["additionalProperties"], o[k], fuel)
  }

  predicate PropertiesMet(re: Patterns, root: Json, s: Fields, o: Fields, fuel: nat) {
    forall k | k in o :: PropertyMet(re, root, s, o, k, fuel)
  }

  predicate ItemsMet(re: Patterns, root: Json, s: Fields, items: seq<Json>, fuel: nat) {
    "items" in s ==> forall x | x in items :: Accepts(re, root, s["items"], x, fuel)
  }

  /** The parts of the value against their schemas. */
  predicate PartsMet(re: Patterns, root: Json, s: Fields, v: Json, fuel: nat) {
    && (v.Object? ==> PropertiesMet(re, root, s, v.fields, fuel))
    && (v.Array? ==> ItemsMet(re, root, s, v.items, fuel))
  }

  predicate ClausesMet(re: Patterns, root: Json, clauses: set<seq<Goal>>, fuel: nat) {
    forall c | c in clauses :: Met(re, root, c, fuel)
  }

  lemma MetOne(re: Patterns, root: Json, g: Goal, fuel: nat)
    ensures Met(re, root, [g], fuel) <==> Accepts(re, root, g.schema, g.value, Below(fuel, g.part))
  {
    assert g in [g];
  }

  lemma AllOfMet(re: Patterns, root: Json, s: Fields, v: Json, fuel: nat)
    ensures ClausesMet(re, root, AllOfClauses(s, v), fuel) <==> AllOf(re, root, Branches(s, "allOf"), v, Below(fuel, false))
  {
    forall b | b in Branches(s, "allOf")
      ensures [Goal(b, v, false)] in AllOfClauses(s, v)
      ensures Met(re, root, [Goal(b, v, false)], fuel) <==> Accepts(re, root, b, v, Below(fuel, false))
    {
      MetOne(re, root, Goal(b, v, false), fuel);
    }
  }

  lemma AlternativesMet(re: Patterns, root: Json, branches: seq<Json>, v: Json, fuel: nat)
    ensures Met(re, root, Alternatives(branches, v), fuel) <==> AnyOf(re, root, branches, v, Below(fuel, false))
  {
    var c := Alternatives(branches, v);
    if Met(re, root, c, fuel) {
      var g :| g in c && Accepts(re, root, g.schema, g.value, Below(fuel, g.part));
      assert g.schema in branches;
    }
    if AnyOf(re, root, branches, v, Below(fuel, false)) {
      var b :| b in branches && Accepts(re, root, b, v, Below(fuel, false));
      var i :| 0 <= i < |branches| && branches[i] == b;
      assert c[i] in c;
    }
  }

  lemma AnyOfMet(re: Patterns, root: Json, s: Fields, v: Json, fuel: nat)
    ensures ClausesMet(re, root, AnyOfClauses(s, v), fuel) <==> ("anyOf" in s ==> AnyOf(re, root, Branches(s, "anyOf"), v, Below(fuel, false)))
  {
    if "anyOf" in s {
      AlternativesMet(re, root, Branches(s, "anyOf"), v, fuel);
      assert AnyOfClauses(s, v) == {Alternatives(Branches(s, "anyOf"), v)};
    }
  }

  lemma ItemsAreMet(re: Patterns, root: Json, s: Fields, v: Json, fuel: nat)
    requires v.Array?
    ensures ClausesMet(re, root, ItemClauses(s, v), fuel) <==> ItemsMet(re, root, s, v.items, Below(fuel, true))
  {
    if "items" in s {
      forall x | x in v.items
        ensures [Goal(s["items"], x, true)] in ItemClauses(s, v)
        ensures Met(re, root, [Goal(s["items"], x, true)], fuel) <==> Accepts(re, root, s["items"], x, Below(fuel, true))
      {
        MetOne(re, root, Goal(s["items"], x, true), fuel);
      }
    }
  }

  /** The clause of a property, if it has one. */
  function ClauseOf(s: Fields, o: Fields, k: string): Option<seq<Goal>>
    requires k in o
  {
    if k in Properties(s) then Some([Goal(Properties(s)[k], o[k], true)])
    else if "additionalProperties" in s && !s["additionalProperties"].Bool? then Some([Goal(s["additionalProperties"], o[k], true)])
    else None
  }

  lemma ClauseOfMet(re: Patterns, root: Json, s: Fields, v: Json, k: string, fuel: nat)
    requires v.Object? && k in v.fields
    ensures ClauseOf(s, v.fields, k).Some? ==> ClauseOf(s, v.fields, k).value in PropertyClauses(s, v) + AdditionalClauses(s, v)
    ensures PropertyMet(re, root, s, v.fields, k, Below(fuel, true)) <==>
            (ClauseOf(s, v.fields, k).Some? ==> Met(re, root, ClauseOf(s, v.fields, k).value, fuel))
  {
    if ClauseOf(s, v.fields, k).Some? { MetOne(re, root, ClauseOf(s, v.fields, k).value[0], fuel); }
    if k in Properties(s) { assert k in v.fields.Keys * Properties(s).Keys; } else { assert k in v.fields.Keys - Properties(s).Keys; }
  }

  lemma ClauseIsOf(s: Fields, v: Json, c: seq<Goal>) returns (k: string)
    requires v.Object? && c in PropertyClauses(s, v) + AdditionalClauses(s, v)
    ensures k in v.fields && ClauseOf(s, v.fields, k) == Some(c)
  {
    if c in PropertyClauses(s, v) {
      k :| k in v.fields.Keys * Properties(s).Keys && c == [Goal(Properties(s)[k], v.fields[k], true)];
    } else {
      k :| k in v.fields.Keys - Properties(s).Keys && c == [Goal(s["additionalProperties"], v.fields[k], true)];
    }
  }

  lemma PropertiesAreMet(re: Patterns, root: Json, s: Fields, v: Json, fuel: nat)
    requires v.Object?
    ensures ClausesMet(re, root, PropertyClauses(s, v) + AdditionalClauses(s, v), fuel) <==>
            PropertiesMet(re, root, s, v.fields, Below(fuel, true))
  {
    if ClausesMet(re, root, PropertyClauses(s, v) + AdditionalClauses(s, v), fuel) {
      forall k | k in v.fields ensures PropertyMet(re, root, s, v.fields, k, Below(fuel, true)) {
        ClauseOfMet(re, root, s, v, k, fuel);
      }
    }
    if PropertiesMet(re, root, s, v.fields, Below(fuel, true)) {
      forall c | c in PropertyClauses(s, v) + AdditionalClauses(s, v) ensures Met(re, root, c, fuel) {
        var k := ClauseIsOf(s, v, c);
        ClauseOfMet(re, root, s, v, k, fuel);
      }
    }
  }

  lemma MetApart(re: Patterns, root: Json, a: set<seq<Goal>>, b: set<seq<Goal>>, fuel: nat)
    ensures ClausesMet(re, root, a + b, fuel) <==> ClausesMet(re, root, a, fuel) && ClausesMet(re, root, b, fuel)
  {
    assert forall c | c in a :: c in a + b;
    assert forall c | c in b :: c in a + b;
  }

  /** The clauses of a node, keyword by keyword. */
  lemma ClausesByKeyword(re: Patterns, root: Json, s: Fields, v: Json, fuel: nat)
    ensures ClausesMet(re, root, Clauses(s, v), fuel) <==>
            && AllOf(re, root, Branches(s, "allOf"), v, Below(fuel, false))
            && ("anyOf" in s ==> AnyOf(re, root, Branches(s, "anyOf"), v, Below(fuel, false)))
            && PartsMet(re, root, s, v, Below(fuel, true))
  {
    var p, q := AllOfClauses(s, v) + AnyOfClauses(s, v), PropertyClauses(s, v) + AdditionalClauses(s, v);
    assert Clauses(s, v) == p + q + ItemClauses(s, v);
    MetApart(re, root, p + q, ItemClauses(s, v), fuel);
    MetApart(re, root, p, q, fuel);
    MetApart(re, root, AllOfClauses(s, v), AnyOfClauses(s, v), fuel);
    AllOfMet(re, root, s, v, fuel);
    AnyOfMet(re, root, s, v, fuel);
    if v.Object? { PropertiesAreMet(re, root, s, v, fuel); }
    if v.Array? { ItemsAreMet(re, root, s, v, fuel); }
  }

  // ---------------------------------------------------------------- the validator

  method CheckEnum(s: Fields, v: Json) returns (ok: bool)
    ensures ok <==> EnumOk(s, v)
  {
    if "enum" !in s {
      return true;
    }
    if !s["enum"].Array? {
      return false;
    }
    var values := s["enum"].items;
    for i := 0 to |values|
      invariant forall k | 0 <= k < i :: !JsonEqual(v, values[k])
    {
      if JsonEqual(v, values[i]) {
        return true;
      }
    }
    return false;
  }

  method CheckRequired(s: Fields, o: Fields) returns (ok: bool)
    ensures ok <==> RequiredOk(s, o)
  {
    if "required" !in s {
      return true;
    }
    if !s["required"].Array? {
      return false;
    }
    var names := s["required"].items;
    for i := 0 to |names|
      invariant forall k | 0 <= k < i :: names[k].Str? && names[k].s != "" && names[k].s in o
    {
      assert names[i] in names;
      if !names[i].Str? || names[i].s == "" || names[i].s !in o {
        return false;
      }
    }
    return true;
  }

  method CheckAllOf(re: Patterns, root: Json, branches: seq<Json>, v: Json, depth: nat) returns (ok: bool)
    ensures ok <==> AllOf(re, root, branches, v, Fuel(depth))
    decreases Fuel(depth), 3
  {
    for i := 0 to |branches|
      invariant forall k | 0 <= k < i :: Accepts(re, root, branches[k], v, Fuel(depth))
    {
      assert branches[i] in branches;
      var accepted := ValidateSchemaValue(re, root, branches[i], v, depth);
      if !accepted {
        return false;
      }
    }
    return true;
  }

  method CheckAnyOf(re: Patterns, root: Json, branches: seq<Json>, v: Json, depth: nat) returns (ok: bool)
    ensures ok <==> AnyOf(re, root, branches, v, Fuel(depth))
    decreases Fuel(depth), 3
  {
    for i := 0 to |branches|
      invariant forall k | 0 <= k < i :: !Accepts(re, root, branches[k], v, Fuel(depth))
    {
      var accepted := ValidateSchemaValue(re, root, branches[i], v, depth);
      if accepted {
        assert branches[i] in branches;
        return true;
      }
    }
    return false;
  }

  method CountMatches(re: Patterns, root: Json, branches: seq<Json>, v: Json, depth: nat) returns (matches: nat)
    ensures matches == Matches(re, root, branches, v, Fuel(depth))
    decreases Fuel(depth), 3
  {
    matches := 0;
    for i := 0 to |branches|
      invariant matches == Matches(re, root, branches[..i], v, Fuel(depth))
    {
      assert branches[..i + 1][..i] == branches[..i];
      var accepted := ValidateSchemaValue(re, root, branches[i], v, depth);
      if accepted { matches := matches + 1; }
    }
    assert branches[..|branches|] == branches;
  }

  method ValidateObjectKeywords(re: Patterns, root: Json, s: Fields, o: Fields, depth: nat) returns (ok: bool)
    ensures ok <==> ObjectOk(s, o) && PropertiesMet(re, root, s, o, Fuel(depth + 1))
    decreases Fuel(depth), 3
  {
    if !AtLeastLimit(s, "minProperties", |o|) || !AtMostLimit(s, "maxProperties", |o|) {
      return false;
    }
    if "properties" in s && !s["properties"].Object? {
      return false;
    }
    var complete := CheckRequired(s, o);
    if !complete {
      return false;
    }
    var todo := o.Keys;
    while todo != {}
      invariant todo <= o.Keys
      invariant forall k | k in o && k !in todo :: PropertyMet(re, root, s, o, k, Fuel(depth + 1))
      invariant "additionalProperties" in s && s["additionalProperties"] == Bool(false) ==> o.Keys - todo <= Properties(s).Keys
    {
      var k :| k in todo;
      todo := todo - {k};
      var accepted := CheckProperty(re, root, s, o, k, depth + 1);
      if !accepted {
        return false;
      }
    }
    return true;
  }

  /** One property against the schema for it. */
  method CheckProperty(re: Patterns, root: Json, s: Fields, o: Fields, k: string, depth: nat) returns (ok: bool)
    requires k in o
    ensures ok <==>
            && PropertyMet(re, root, s, o, k, Fuel(depth))
            && ("additionalProperties" in s && s["additionalProperties"] == Bool(false) ==> k in Properties(s))
    decreases Fuel(depth), 2
  {
    if k in Properties(s) {
      ok := ValidateSchemaValue(re, root, Properties(s)[k], o[k], depth);
    } else if "additionalProperties" !in s {
      ok := true;
    } else if s["additionalProperties"].Bool? {
      ok := s["additionalProperties"].b;
    } else {
      ok := ValidateSchemaValue(re, root, s["additionalProperties"], o[k], depth);
    }
  }

  method ValidateArrayKeywords(re: Patterns, root: Json, s: Fields, items: seq<Json>, depth: nat) returns (ok: bool)
    ensures ok <==> ArrayOk(s, |items|) && ItemsMet(re, root, s, items, Fuel(depth + 1))
    decreases Fuel(depth), 3
  {
    if !ArrayOk(s, |items|) {
      return false;
    }
    if "items" in s {
      for i := 0 to |items|
        invariant forall k | 0 <= k < i :: Accepts(re, root, s["items"], items[k], Fuel(depth + 1))
      {
        assert items[i] in items;
        var accepted := ValidateSchemaValue(re, root, s["items"], items[i], depth + 1);
        if !accepted {
          return false;
        }
      }
    }
    return true;
  }

  /** The value itself, then its parts. */
  method ValidateValue(re: Patterns, root: Json, s: Fields, v: Json, depth: nat) returns (ok: bool)
    ensures ok <==> ValueOk(re, s, v) && PartsMet(re, root, s, v, Fuel(depth + 1))
    decreases Fuel(depth), 4
  {
    if !ConstOk(s, v) {
      return false;
    }
    var listed := CheckEnum(s, v);
    if !listed || !TypeOk(s, v) {
      return false;
    }
    match v
    case Object(o) => ok := ValidateObjectKeywords(re, root, s, o, depth);
    case Array(items) => ok := ValidateArrayKeywords(re, root, s, items, depth);
    case Str(text) => ok := StringOk(re, s, text);
    case Number(_, n) => ok := NumberOk(s, n);
    case _ => ok := true;
  }

  /** The combinators: allOf, anyOf, oneOf and not. */
  method ValidateCombinators(re: Patterns, root: Json, s: Fields, v: Json, depth: nat) returns (ok: bool)
    ensures ok <==>
            && BranchesOk(s, "allOf") && BranchesOk(s, "anyOf") && BranchesOk(s, "oneOf")
            && AllOf(re, root, Branches(s, "allOf"), v, Fuel(depth))
            && ("anyOf" in s ==> AnyOf(re, root, Branches(s, "anyOf"), v, Fuel(depth)))
            && ("oneOf" in s ==> Matches(re, root, Branches(s, "oneOf"), v, Fuel(depth)) == 1)
            && ("not" in s ==> !Accepts(re, root, s["not"], v, Fuel(depth)))
    decreases Fuel(depth), 4
  {
    if !BranchesOk(s, "allOf") {
      return false;
    }
    ok := CheckAllOf(re, root, Branches(s, "allOf"), v, depth);
    if !ok || !BranchesOk(s, "anyOf") {
      return false;
    }
    if "anyOf" in s {
      ok := CheckAnyOf(re, root, Branches(s, "anyOf"), v, depth);
      if !ok {
        return;
      }
    }
    if !BranchesOk(s, "oneOf") {
      return false;
    }
    if "oneOf" in s {
      var matches := CountMatches(re, root, Branches(s, "oneOf"), v, depth);
      if matches != 1 {
        return false;
      }
    }
    if "not" in s {
      var forbidden := ValidateSchemaValue(re, root, s["not"], v, depth);
      if forbidden {
        return false;
      }
    }
    return true;
  }

  lemma AcceptsByClause(re: Patterns, root: Json, s: Fields, v: Json, fuel: nat)
    requires "$ref" !in s && fuel > 0
    ensures Accepts(re, root, Object(s), v, fuel) <==>
            && Local(re, s, v)
            && ClausesMet(re, root, Clauses(s, v), fuel)
            && ("oneOf" in s ==> Matches(re, root, Branches(s, "oneOf"), v, fuel - 1) == 1)
            && ("not" in s ==> !Accepts(re, root, s["not"], v, fuel - 1))
  {
  }

  /** Acceptance of a node without reference, keyword by keyword. */
  lemma AcceptsByKeyword(re: Patterns, root: Json, s: Fields, v: Json, fuel: nat)
    requires "$ref" !in s && fuel > 0
    ensures Accepts(re, root, Object(s), v, fuel) <==>
            && Local(re, s, v)
            && AllOf(re, root, Branches(s, "allOf"), v, Below(fuel, false))
            && ("anyOf" in s ==> AnyOf(re, root, Branches(s, "anyOf"), v, Below(fuel, false)))
            && PartsMet(re, root, s, v, Below(fuel, true))
            && ("oneOf" in s ==> Matches(re, root, Branches(s, "oneOf"), v, fuel - 1) == 1)
            && ("not" in s ==> !Accepts(re, root, s["not"], v, fuel - 1))
  {
    AcceptsByClause(re, root, s, v, fuel);
    ClausesByKeyword(re, root, s, v, fuel);
  }

  /** A node that is not a reference. */
  method ValidateNode(re: Patterns, root: Json, s: Fields, v: Json, depth: nat) returns (ok: bool)
    requires "$ref" !in s && depth <= MAX_DEPTH
    ensures ok <==> Accepts(re, root, Object(s), v, Fuel(depth))
    decreases Fuel(depth), 0
  {
    AcceptsByKeyword(re, root, s, v, Fuel(depth));
    ok := ValidateCombinators(re, root, s, v, depth + 1);
    if ok { ok := ValidateValue(re, root, s, v, depth + 1); }
  }

  /** The validator terminates on every schema, references in a circle included, and computes bounded acceptance. */
  method ValidateSchemaValue(re: Patterns, root: Json, schema: Json, v: Json, depth: nat) returns (ok: bool)
    ensures ok <==> Accepts(re, root, schema, v, Fuel(depth))
    decreases Fuel(depth), 1
  {
    if depth > MAX_DEPTH {
      return false;
    }
    match schema
    case Bool(allowed) => return allowed;
    case Object(s) =>
      if "$ref" in s {
        if !s["$ref"].Str? {
          return false;
        }
        var target := ResolveLocalReference(root, s["$ref"].s);
        if target.None? {
          return false;
        }
        ok := ValidateSchemaValue(re, root, target.value, v, depth + 1);
      } else {
        ok := ValidateNode(re, root, s, v, depth);
      }
    case _ => return false;
  }

  /** A value against a schema document: 65 levels are at hand. */
  method ValidateDocument(re: Patterns, root: Json, v: Json) returns (ok: bool)
    ensures ok <==> Accepts(re, root, root, v, 65)
  {
    ok := ValidateSchemaValue(re, root, root, v, 0);
  }
}
