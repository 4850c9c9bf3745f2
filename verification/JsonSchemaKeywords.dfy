/** What single keywords accept, and when the bound on nesting cannot be noticed. */
module JsonSchemaKeywords {
  import opened Common
  import opened JsonPointer
  import opened JsonSchema
  import opened JsonSchemaValidator

  /** A schema with one keyword. */
  function Only(key: string, x: Json): Json {
    Object(map[key := x])
  }

  /** No keyword that looks at another schema. */
  predicate Plain(s: Fields) {
    "$ref" !in s && "oneOf" !in s && "not" !in s && NoClause(s)
  }

  predicate NoClause(s: Fields) {
    "allOf" !in s && "anyOf" !in s && "properties" !in s && "additionalProperties" !in s && "items" !in s
  }

  lemma NoClauses(s: Fields, v: Json)
    requires NoClause(s)
    ensures Clauses(s, v) == {}
  {
    assert Branches(s, "allOf") == [] && Properties(s) == map[];
    assert AllOfClauses(s, v) == {} && PropertyClauses(s, v) == {};
  }

  lemma PlainIsLocal(re: Patterns, root: Json, s: Fields, v: Json, fuel: nat)
    requires Plain(s) && fuel > 0
    ensures Accepts(re, root, Object(s), v, fuel) <==> ValueOk(re, s, v)
  {
    NoClauses(s, v);
    AcceptsByClause(re, root, s, v, fuel);
  }

  // The keywords by the kind of value they look at.

  predicate NoGeneral(s: Fields) {
    "const" !in s && "enum" !in s && "type" !in s
  }

  predicate NoObject(s: Fields) {
    "minProperties" !in s && "maxProperties" !in s && "required" !in s && "properties" !in s && "additionalProperties" !in s
  }

  predicate NoArray(s: Fields) {
    "minItems" !in s && "maxItems" !in s
  }

  predicate NoString(s: Fields) {
    "minLength" !in s && "maxLength" !in s && "pattern" !in s
  }

  predicate NoNumber(s: Fields) {
    "minimum" !in s && "maximum" !in s && "exclusiveMinimum" !in s && "exclusiveMaximum" !in s
  }

  lemma ByKind(re: Patterns, s: Fields, v: Json)
    requires NoGeneral(s)
    ensures NoArray(s) && NoString(s) && NoNumber(s) ==> (ValueOk(re, s, v) <==> (v.Object? ==> ObjectOk(s, v.fields)))
    ensures NoObject(s) && NoString(s) && NoNumber(s) ==> (ValueOk(re, s, v) <==> (v.Array? ==> ArrayOk(s, |v.items|)))
    ensures NoObject(s) && NoArray(s) && NoNumber(s) ==> (ValueOk(re, s, v) <==> (v.Str? ==> StringOk(re, s, v.s)))
    ensures NoObject(s) && NoArray(s) && NoString(s) ==> (ValueOk(re, s, v) <==> (v.Number? ==> NumberOk(s, v.value)))
  {
  }

  /** Without keywords on values every value is fine. */
  lemma AnyValue(re: Patterns, s: Fields, v: Json)
    requires NoGeneral(s) && NoObject(s) && NoArray(s) && NoString(s) && NoNumber(s)
    ensures ValueOk(re, s, v)
  {
  }

  /** One keyword on strings, arrays, objects or numbers. */
  lemma LoneKey(key: string, x: Json)
    requires key != ""
    ensures var s := map[key := x];
            && (key in {"minLength", "maxLength", "pattern"} ==> Plain(s) && NoGeneral(s) && NoObject(s) && NoArray(s) && NoNumber(s))
            && (key in {"minItems", "maxItems"} ==> Plain(s) && NoGeneral(s) && NoObject(s) && NoString(s) && NoNumber(s))
            && (key in {"minProperties", "maxProperties", "required"} ==> Plain(s) && NoGeneral(s) && NoArray(s) && NoString(s) && NoNumber(s))
            && (key in {"minimum", "maximum", "exclusiveMinimum", "exclusiveMaximum"} ==>
                  Plain(s) && NoGeneral(s) && NoObject(s) && NoArray(s) && NoString(s))
  {
  }

  predicate Whole(x: real, n: int) {
    x == n as real
  }

  /** "type": each name accepts the values of its kind, "integer" the numbers without a fraction, other names nothing. */
  lemma TypeMeans(re: Patterns, root: Json, name: string, v: Json, fuel: nat)
    requires fuel > 0
    ensures Accepts(re, root, Only("type", Str(name)), v, fuel) <==>
            match name
            case "object" => v.Object?
            case "array" => v.Array?
            case "string" => v.Str?
            case "boolean" => v.Bool?
            case "null" => v.Null?
            case "number" => v.Number?
            case "integer" => v.Number? && exists n: int :: Whole(v.value, n)
            case _ => false
  {
    PlainIsLocal(re, root, map["type" := Str(name)], v, fuel);
    if v.Number? { IntegerMeans(v.value); }
  }

  lemma IntegerMeans(x: real)
    ensures IsInteger(x) <==> exists n: int :: Whole(x, n)
  {
    if IsInteger(x) { assert Whole(x, x.Floor); }
  }

  /** Bounds on numbers: of no concern to other values. */
  lemma BoundMeans(re: Patterns, root: Json, key: string, text: string, bound: real, v: Json, fuel: nat)
    requires fuel > 0 && key in {"minimum", "maximum", "exclusiveMinimum", "exclusiveMaximum"}
    ensures Accepts(re, root, Only(key, Number(text, bound)), v, fuel) <==> (v.Number? ==> InBound(key, bound, v.value))
  {
    var s := map[key := Number(text, bound)];
    LoneKey(key, Number(text, bound));
    PlainIsLocal(re, root, s, v, fuel);
    ByKind(re, s, v);
    if v.Number? { BoundOk(key, text, bound, v.value); }
  }

  predicate InBound(key: string, bound: real, n: real) {
    match key
    case "minimum" => bound <= n
    case "maximum" => n <= bound
    case "exclusiveMinimum" => bound < n
    case _ => n < bound
  }

  lemma BoundOk(key: string, text: string, bound: real, n: real)
    requires key in {"minimum", "maximum", "exclusiveMinimum", "exclusiveMaximum"}
    ensures NumberOk(map[key := Number(text, bound)], n) <==> InBound(key, bound, n)
  {
  }

  /** Bounds on the length of strings, the size of arrays and the number of properties. */
  lemma LengthMeans(re: Patterns, root: Json, key: string, text: string, n: nat, v: Json, fuel: nat)
    requires fuel > 0 && key in {"minLength", "maxLength"}
    ensures Accepts(re, root, Only(key, Number(text, n as real)), v, fuel) <==>
            (v.Str? ==> if key == "minLength" then n <= |v.s| else |v.s| <= n)
  {
    var s := map[key := Number(text, n as real)];
    LoneKey(key, Number(text, n as real));
    PlainIsLocal(re, root, s, v, fuel);
    ByKind(re, s, v);
    LimitIs(text, n);
    if v.Str? { assert StringOk(re, s, v.s) <==> if key == "minLength" then n <= |v.s| else |v.s| <= n; }
  }

  lemma ItemCountMeans(re: Patterns, root: Json, key: string, text: string, n: nat, v: Json, fuel: nat)
    requires fuel > 0 && key in {"minItems", "maxItems"}
    ensures Accepts(re, root, Only(key, Number(text, n as real)), v, fuel) <==>
            (v.Array? ==> if key == "minItems" then n <= |v.items| else |v.items| <= n)
  {
    var s := map[key := Number(text, n as real)];
    LoneKey(key, Number(text, n as real));
    PlainIsLocal(re, root, s, v, fuel);
    ByKind(re, s, v);
    LimitIs(text, n);
    if v.Array? { assert ArrayOk(s, |v.items|) <==> if key == "minItems" then n <= |v.items| else |v.items| <= n; }
  }

  lemma PropertyCountMeans(re: Patterns, root: Json, key: string, text: string, n: nat, v: Json, fuel: nat)
    requires fuel > 0 && key in {"minProperties", "maxProperties"}
    ensures Accepts(re, root, Only(key, Number(text, n as real)), v, fuel) <==>
            (v.Object? ==> if key == "minProperties" then n <= |v.fields| else |v.fields| <= n)
  {
    var s := map[key := Number(text, n as real)];
    LoneKey(key, Number(text, n as real));
    PlainIsLocal(re, root, s, v, fuel);
    ByKind(re, s, v);
    LimitIs(text, n);
    if v.Object? { assert ObjectOk(s, v.fields) <==> if key == "minProperties" then n <= |v.fields| else |v.fields| <= n; }
  }

  lemma LimitIs(text: string, n: nat)
    ensures Limit(Number(text, n as real)) == Some(n)
  {
  }

  /** A size limit that is negative, has a fraction or is no number is met by no string. */
  lemma BadLimit(re: Patterns, root: Json, key: string, x: Json, text: string, fuel: nat)
    requires key in {"minLength", "maxLength"} && (x.Number? ==> x.value < 0.0 || forall n: int :: !Whole(x.value, n))
    ensures !Accepts(re, root, Only(key, x), Str(text), fuel)
  {
    if fuel > 0 {
      LoneKey(key, x);
      PlainIsLocal(re, root, map[key := x], Str(text), fuel);
      ByKind(re, map[key := x], Str(text));
      if x.Number? { IntegerMeans(x.value); }
      assert Limit(x).None? && !StringOk(re, map[key := x], text);
    }
  }

  /** Numbers are equal by value, everything else as it is. */
  predicate Same(a: Json, b: Json) {
    a == b || (a.Number? && b.Number? && a.value == b.value)
  }

  lemma ListedMeans(re: Patterns, root: Json, values: seq<Json>, v: Json, fuel: nat)
    requires fuel > 0
    ensures Accepts(re, root, Only("enum", Array(values)), v, fuel) <==> exists x | x in values :: Same(x, v)
  {
    var s := map["enum" := Array(values)];
    PlainIsLocal(re, root, s, v, fuel);
    EnumMeans(values, v);
    assert ValueOk(re, s, v) <==> EnumOk(s, v);
  }

  lemma EnumMeans(values: seq<Json>, v: Json)
    ensures EnumOk(map["enum" := Array(values)], v) <==> exists x | x in values :: Same(x, v)
  {
    if exists x | x in values :: Same(x, v) {
      var x :| x in values && Same(x, v);
      var i :| 0 <= i < |values| && values[i] == x;
      assert JsonEqual(v, values[i]);
    }
    if EnumOk(map["enum" := Array(values)], v) {
      var i :| 0 <= i < |values| && JsonEqual(v, values[i]);
      assert values[i] in values && Same(values[i], v);
    }
  }

  lemma ConstMeans(re: Patterns, root: Json, x: Json, v: Json, fuel: nat)
    requires fuel > 0
    ensures Accepts(re, root, Only("const", x), v, fuel) <==> Same(x, v)
  {
    PlainIsLocal(re, root, map["const" := x], v, fuel);
  }

  /** "required": an object must have every property named. */
  lemma RequiredMeans(re: Patterns, root: Json, names: seq<string>, v: Json, fuel: nat)
    requires fuel > 0 && forall i | 0 <= i < |names| :: names[i] != ""
    ensures var list := Array(seq(|names|, i requires 0 <= i < |names| => Str(names[i])));
            Accepts(re, root, Only("required", list), v, fuel) <==> (v.Object? ==> forall i | 0 <= i < |names| :: names[i] in v.fields)
  {
    var items := seq(|names|, i requires 0 <= i < |names| => Str(names[i]));
    var s := map["required" := Array(items)];
    LoneKey("required", Array(items));
    PlainIsLocal(re, root, s, v, fuel);
    ByKind(re, s, v);
    if v.Object? {
      RequiredList(names, items, v.fields);
      assert ObjectOk(s, v.fields) <==> RequiredOk(s, v.fields);
    }
  }

  lemma RequiredList(names: seq<string>, items: seq<Json>, o: Fields)
    requires |items| == |names| && forall i | 0 <= i < |names| :: items[i] == Str(names[i]) && names[i] != ""
    ensures RequiredOk(map["required" := Array(items)], o) <==> forall i | 0 <= i < |names| :: names[i] in o
  {
    if RequiredOk(map["required" := Array(items)], o) {
      forall i | 0 <= i < |names| ensures names[i] in o { assert items[i] in items; }
    }
  }

  /** "pattern": a string must match; nothing matches an invalid pattern. */
  lemma PatternMeans(re: Patterns, root: Json, pattern: string, v: Json, fuel: nat)
    requires fuel > 0
    ensures Accepts(re, root, Only("pattern", Str(pattern)), v, fuel) <==> (v.Str? ==> re(pattern, v.s) == Some(true))
  {
    LoneKey("pattern", Str(pattern));
    PlainIsLocal(re, root, map["pattern" := Str(pattern)], v, fuel);
    ByKind(re, map["pattern" := Str(pattern)], v);
  }

  predicate IsTypeName(name: string) {
    name in {"object", "array", "string", "boolean", "null", "number", "integer"}
  }

  /** The place of the type that decides: it fits, and those before it are type names that do not. */
  ghost predicate Decides(types: seq<Json>, v: Json, i: nat) {
    && i < |types| && types[i].Str? && OneType(types[i].s, v) == Some(true)
    && forall j | 0 <= j < i :: types[j].Str? && IsTypeName(types[j].s)
  }

  lemma {:induction false} AnyTypeMeans(types: seq<Json>, v: Json)
    ensures AnyType(types, v) == Some(true) <==> exists i: nat :: Decides(types, v, i)
  {
    if types != [] && types[0].Str? {
      var rest := types[1..];
      AnyTypeMeans(rest, v);
      if OneType(types[0].s, v) == Some(true) {
        assert Decides(types, v, 0);
      } else {
        TypesShift(types, v);
      }
    }
  }

  /** Past a type that does not fit. */
  lemma TypesShift(types: seq<Json>, v: Json)
    requires types != [] && types[0].Str? && OneType(types[0].s, v) != Some(true)
    ensures (exists i: nat :: Decides(types, v, i)) <==> IsTypeName(types[0].s) && exists i: nat :: Decides(types[1..], v, i)
  {
    var rest := types[1..];
    assert forall j | 0 < j < |types| :: types[j] == rest[j - 1];
    if exists i: nat :: Decides(types, v, i) {
      var i: nat :| Decides(types, v, i);
      assert i != 0;
      assert Decides(rest, v, i - 1);
    }
    if IsTypeName(types[0].s) && exists i: nat :: Decides(rest, v, i) {
      var i: nat :| Decides(rest, v, i);
      assert Decides(types, v, i + 1);
    }
  }

  /** "type" with a list: one of the types fits, and nothing before it is no type. */
  lemma TypesMean(re: Patterns, root: Json, types: seq<Json>, v: Json, fuel: nat)
    requires fuel > 0
    ensures Accepts(re, root, Only("type", Array(types)), v, fuel) <==> exists i: nat :: Decides(types, v, i)
  {
    PlainIsLocal(re, root, map["type" := Array(types)], v, fuel);
    AnyTypeMeans(types, v);
  }

  // ---------------------------------------------------------------- keywords with schemas

  lemma BoolMeans(re: Patterns, root: Json, allowed: bool, v: Json, fuel: nat)
    requires fuel > 0
    ensures Accepts(re, root, Bool(allowed), v, fuel) <==> allowed
  {
  }

  function Closed(properties: Fields, additional: Json): Fields {
    map["properties" := Object(properties), "additionalProperties" := additional]
  }

  lemma ClosedKeys(properties: Fields, additional: Json)
    ensures var s := Closed(properties, additional);
            && "$ref" !in s && "allOf" !in s && "anyOf" !in s && "oneOf" !in s && "not" !in s && "items" !in s
            && NoGeneral(s) && NoArray(s) && NoString(s) && NoNumber(s)
  {
  }

  lemma ClosedObject(properties: Fields, additional: Json, o: Fields)
    ensures var s := Closed(properties, additional);
            && Properties(s) == properties && "additionalProperties" in s && s["additionalProperties"] == additional
            && (ObjectOk(s, o) <==> (additional == Bool(false) ==> o.Keys <= properties.Keys))
  {
  }

  /** A property that is declared against its own schema, every other one against the additional one. */
  predicate Held(re: Patterns, root: Json, properties: Fields, additional: Json, k: string, x: Json, fuel: nat) {
    Accepts(re, root, if k in properties then properties[k] else additional, x, fuel)
  }

  ghost predicate AllHeld(re: Patterns, root: Json, properties: Fields, additional: Json, o: Fields, fuel: nat) {
    forall k | k in o :: Held(re, root, properties, additional, k, o[k], fuel)
  }

  lemma OneProperty(re: Patterns, root: Json, properties: Fields, additional: Json, o: Fields, k: string, fuel: nat)
    requires k in o && fuel > 0
    ensures PropertyMet(re, root, Closed(properties, additional), o, k, fuel) && (additional == Bool(false) ==> k in properties) <==>
            Held(re, root, properties, additional, k, o[k], fuel)
  {
    ClosedObject(properties, additional, o);
    if additional.Bool? { BoolMeans(re, root, additional.b, o[k], fuel); }
  }

  lemma PropertiesHeld(re: Patterns, root: Json, properties: Fields, additional: Json, o: Fields, fuel: nat)
    requires fuel > 0
    ensures var s := Closed(properties, additional);
            ObjectOk(s, o) && PropertiesMet(re, root, s, o, fuel) <==> AllHeld(re, root, properties, additional, o, fuel)
  {
    ClosedObject(properties, additional, o);
    forall k | k in o
      ensures PropertyMet(re, root, Closed(properties, additional), o, k, fuel) && (additional == Bool(false) ==> k in properties) <==>
              Held(re, root, properties, additional, k, o[k], fuel)
    {
      OneProperty(re, root, properties, additional, o, k, fuel);
    }
  }

  lemma WithoutCombinators(re: Patterns, root: Json, s: Fields, v: Json, fuel: nat)
    requires "$ref" !in s && "allOf" !in s && "anyOf" !in s && "oneOf" !in s && "not" !in s && fuel > 0
    ensures Accepts(re, root, Object(s), v, fuel) <==> ValueOk(re, s, v) && PartsMet(re, root, s, v, JsonSchema.Below(fuel, true))
  {
    AcceptsByKeyword(re, root, s, v, fuel);
  }

  lemma ObjectsOnly(re: Patterns, root: Json, s: Fields, v: Json, fuel: nat)
    requires "$ref" !in s && "allOf" !in s && "anyOf" !in s && "oneOf" !in s && "not" !in s && "items" !in s
    requires NoGeneral(s) && NoArray(s) && NoString(s) && NoNumber(s) && fuel >= 3
    ensures Accepts(re, root, Object(s), v, fuel) <==> (v.Object? ==> ObjectOk(s, v.fields) && PropertiesMet(re, root, s, v.fields, fuel - 2))
  {
    WithoutCombinators(re, root, s, v, fuel);
    ByKind(re, s, v);
  }

  /** "properties" and "additionalProperties", the latter a schema or a boolean. */
  lemma PropertiesMean(re: Patterns, root: Json, properties: Fields, additional: Json, v: Json, fuel: nat)
    requires fuel >= 3
    ensures Accepts(re, root, Object(Closed(properties, additional)), v, fuel) <==>
            (v.Object? ==> AllHeld(re, root, properties, additional, v.fields, fuel - 2))
  {
    ClosedKeys(properties, additional);
    ObjectsOnly(re, root, Closed(properties, additional), v, fuel);
    if v.Object? { PropertiesHeld(re, root, properties, additional, v.fields, fuel - 2); }
  }

  lemma LoneSchema(key: string, x: Json)
    requires key in {"items", "allOf", "anyOf", "oneOf", "not"}
    ensures var s := map[key := x]; "$ref" !in s && NoGeneral(s) && NoObject(s) && NoArray(s) && NoString(s) && NoNumber(s)
  {
  }

  lemma LoneLocal(re: Patterns, key: string, x: Json, v: Json)
    requires key in {"items", "allOf", "anyOf", "oneOf", "not"}
    ensures Local(re, map[key := x], v) <==> (key in {"allOf", "anyOf", "oneOf"} ==> x.Array? && x.items != [])
  {
    LoneSchema(key, x);
    AnyValue(re, map[key := x], v);
  }

  /** "items": every item. */
  lemma ItemsMean(re: Patterns, root: Json, x: Json, v: Json, fuel: nat)
    requires fuel >= 2
    ensures Accepts(re, root, Only("items", x), v, fuel) <==>
            (v.Array? ==> forall y | y in v.items :: Accepts(re, root, x, y, fuel - 2))
  {
    LoneSchema("items", x);
    AnyValue(re, map["items" := x], v);
    WithoutCombinators(re, root, map["items" := x], v, fuel);
  }

  lemma LoneBranches(branches: seq<Json>, key: string)
    ensures Branches(map[key := Array(branches)], key) == branches
    ensures forall other | other != key :: Branches(map[key := Array(branches)], other) == []
  {
  }

  lemma AllOfMeans(re: Patterns, root: Json, branches: seq<Json>, v: Json, fuel: nat)
    requires fuel >= 2
    ensures Accepts(re, root, Only("allOf", Array(branches)), v, fuel) <==> branches != [] && AllOf(re, root, branches, v, fuel - 1)
  {
    AcceptsByKeyword(re, root, map["allOf" := Array(branches)], v, fuel);
    LoneLocal(re, "allOf", Array(branches), v);
    LoneBranches(branches, "allOf");
  }

  lemma AnyOfMeans(re: Patterns, root: Json, branches: seq<Json>, v: Json, fuel: nat)
    requires fuel >= 2
    ensures Accepts(re, root, Only("anyOf", Array(branches)), v, fuel) <==> AnyOf(re, root, branches, v, fuel - 1)
  {
    AcceptsByKeyword(re, root, map["anyOf" := Array(branches)], v, fuel);
    LoneLocal(re, "anyOf", Array(branches), v);
    LoneBranches(branches, "anyOf");
  }

  lemma NotMeans(re: Patterns, root: Json, x: Json, v: Json, fuel: nat)
    requires fuel >= 2
    ensures Accepts(re, root, Only("not", x), v, fuel) <==> !Accepts(re, root, x, v, fuel - 1)
  {
    AcceptsByKeyword(re, root, map["not" := x], v, fuel);
    LoneLocal(re, "not", x, v);
  }

  // ---------------------------------------------------------------- oneOf

  /** Which branches accept. */
  ghost function Verdicts(re: Patterns, root: Json, branches: seq<Json>, v: Json, fuel: nat): seq<bool> {
    seq(|branches|, i requires 0 <= i < |branches| => Accepts(re, root, branches[i], v, fuel))
  }

  ghost function Places(verdicts: seq<bool>): set<nat> {
    set i: nat | i < |verdicts| && verdicts[i]
  }

  function Count(verdicts: seq<bool>): nat {
    if verdicts == [] then 0 else Count(verdicts[..|verdicts| - 1]) + if verdicts[|verdicts| - 1] then 1 else 0
  }

  lemma {:induction false} CountMeans(verdicts: seq<bool>)
    ensures Count(verdicts) == |Places(verdicts)|
  {
    if verdicts == [] {
      assert Places(verdicts) == {};
    } else {
      var init, last := verdicts[..|verdicts| - 1], |verdicts| - 1;
      CountMeans(init);
      assert Places(verdicts) == if verdicts[last] then Places(init) + {last} else Places(init);
    }
  }

  predicate Nowhere(verdicts: seq<bool>) {
    forall i | 0 <= i < |verdicts| :: !verdicts[i]
  }

  predicate Alone(verdicts: seq<bool>, i: nat) {
    i < |verdicts| && verdicts[i] && forall j | 0 <= j < |verdicts| && j != i :: !verdicts[j]
  }

  ghost predicate OnlyOne(verdicts: seq<bool>) {
    exists i: nat :: Alone(verdicts, i)
  }

  lemma {:induction false} CountZero(verdicts: seq<bool>)
    ensures Count(verdicts) == 0 <==> Nowhere(verdicts)
  {
    if verdicts != [] { CountZero(verdicts[..|verdicts| - 1]); }
  }

  lemma AloneSplit(verdicts: seq<bool>, init: seq<bool>, last: bool)
    requires verdicts == init + [last]
    ensures last ==> (Nowhere(init) <==> exists i: nat :: Alone(verdicts, i))
    ensures !last ==> ((exists i: nat :: Alone(init, i)) <==> exists i: nat :: Alone(verdicts, i))
  {
    if last && Nowhere(init) { assert Alone(verdicts, |init|); }
    assert forall j | 0 <= j < |init| :: init[j] == verdicts[j];
    if exists i: nat :: Alone(verdicts, i) {
      var i: nat :| Alone(verdicts, i);
      if last {
        assert verdicts[|init|];
      } else {
        assert !verdicts[|init|];
        assert Alone(init, i);
      }
    }
    if !last && exists i: nat :: Alone(init, i) {
      var i: nat :| Alone(init, i);
      assert Alone(verdicts, i);
    }
  }

  lemma {:induction false} CountOne(verdicts: seq<bool>)
    ensures Count(verdicts) == 1 <==> OnlyOne(verdicts)
  {
    if verdicts != [] {
      var init, last := verdicts[..|verdicts| - 1], verdicts[|verdicts| - 1];
      CountZero(init);
      CountOne(init);
      AloneSplit(verdicts, init, last);
    }
  }

  lemma MatchesOneMore(re: Patterns, root: Json, branches: seq<Json>, v: Json, fuel: nat)
    requires branches != []
    ensures var init, last := branches[..|branches| - 1], branches[|branches| - 1];
            Matches(re, root, branches, v, fuel) == Matches(re, root, init, v, fuel) + if Accepts(re, root, last, v, fuel) then 1 else 0
  {
  }

  lemma VerdictsOneMore(re: Patterns, root: Json, branches: seq<Json>, v: Json, fuel: nat)
    requires branches != []
    ensures var init, last := branches[..|branches| - 1], branches[|branches| - 1];
            Verdicts(re, root, branches, v, fuel) == Verdicts(re, root, init, v, fuel) + [Accepts(re, root, last, v, fuel)]
  {
  }

  lemma CountOneMore(verdicts: seq<bool>, b: bool)
    ensures Count(verdicts + [b]) == Count(verdicts) + if b then 1 else 0
  {
    assert (verdicts + [b])[..|verdicts|] == verdicts;
  }

  lemma {:induction false} MatchesCount(re: Patterns, root: Json, branches: seq<Json>, v: Json, fuel: nat)
    ensures Matches(re, root, branches, v, fuel) == Count(Verdicts(re, root, branches, v, fuel))
    decreases |branches|
  {
    if branches != [] {
      var init, last := branches[..|branches| - 1], branches[|branches| - 1];
      MatchesCount(re, root, init, v, fuel);
      MatchesOneMore(re, root, branches, v, fuel);
      VerdictsOneMore(re, root, branches, v, fuel);
      CountOneMore(Verdicts(re, root, init, v, fuel), Accepts(re, root, last, v, fuel));
    }
  }

  /** The count is the number of places whose branch accepts, repeated branches counted each. */
  lemma MatchesMeans(re: Patterns, root: Json, branches: seq<Json>, v: Json, fuel: nat)
    ensures Matches(re, root, branches, v, fuel) == |Places(Verdicts(re, root, branches, v, fuel))|
  {
    MatchesCount(re, root, branches, v, fuel);
    CountMeans(Verdicts(re, root, branches, v, fuel));
  }

  lemma OneOfNode(re: Patterns, root: Json, branches: seq<Json>, v: Json, fuel: nat)
    requires branches != [] && fuel > 0
    ensures Accepts(re, root, Only("oneOf", Array(branches)), v, fuel) <==> Matches(re, root, branches, v, fuel - 1) == 1
  {
    var s := map["oneOf" := Array(branches)];
    LoneLocal(re, "oneOf", Array(branches), v);
    LoneBranches(branches, "oneOf");
    assert NoClause(s) && "not" !in s;
    NoClauses(s, v);
    AcceptsByClause(re, root, s, v, fuel);
  }

  /** "oneOf": there is a branch that accepts, and no other one does. */
  lemma OneOfMeans(re: Patterns, root: Json, branches: seq<Json>, v: Json, fuel: nat)
    requires branches != [] && fuel > 0
    ensures Accepts(re, root, Only("oneOf", Array(branches)), v, fuel) <==>
            OnlyOne(Verdicts(re, root, branches, v, fuel - 1))
  {
    OneOfNode(re, root, branches, v, fuel);
    MatchesCount(re, root, branches, v, fuel - 1);
    CountOne(Verdicts(re, root, branches, v, fuel - 1));
  }

  // ---------------------------------------------------------------- schemas the bound does not touch

  /** All schemas a node is evaluated through, those under `not` and `oneOf` included. */
  function Below(s: Fields): set<Json> {
    (set b | b in Branches(s, "allOf")) + (set b | b in Branches(s, "anyOf")) + (set b | b in Branches(s, "oneOf"))
    + Properties(s).Values
    + (if "additionalProperties" in s then {s["additionalProperties"]} else {})
    + (if "items" in s then {s["items"]} else {})
    + (if "not" in s then {s["not"]} else {})
  }

  /** Nested at most `height` deep and without references. */
  predicate Shallow(schema: Json, height: nat) {
    height > 0 && (schema.Object? ==> "$ref" !in schema.fields && forall x | x in Below(schema.fields) :: Shallow(x, height - 1))
  }

  lemma ClauseIsBelow(s: Fields, v: Json, c: seq<Goal>, g: Goal)
    requires c in Clauses(s, v) && g in c
    ensures g.schema in Below(s)
  {
    if c in PropertyClauses(s, v) {
      var k :| k in v.fields.Keys * Properties(s).Keys && c == [Goal(Properties(s)[k], v.fields[k], true)];
      assert Properties(s)[k] in Properties(s).Values;
    }
  }

  lemma {:induction false} SameMatches(re: Patterns, root: Json, branches: seq<Json>, v: Json, f: nat, g: nat)
    requires forall b | b in branches :: Accepts(re, root, b, v, f) == Accepts(re, root, b, v, g)
    ensures Matches(re, root, branches, v, f) == Matches(re, root, branches, v, g)
    decreases |branches|
  {
    if branches != [] {
      assert branches[|branches| - 1] in branches;
      SameMatches(re, root, branches[..|branches| - 1], v, f, g);
    }
  }

  lemma SameNode(re: Patterns, root: Json, s: Fields, v: Json, f: nat, g: nat)
    requires "$ref" !in s && f > 0 && g > 0
    requires ClausesMet(re, root, Clauses(s, v), f) == ClausesMet(re, root, Clauses(s, v), g)
    requires "oneOf" in s ==> Matches(re, root, Branches(s, "oneOf"), v, f - 1) == Matches(re, root, Branches(s, "oneOf"), v, g - 1)
    requires "not" in s ==> Accepts(re, root, s["not"], v, f - 1) == Accepts(re, root, s["not"], v, g - 1)
    ensures Accepts(re, root, Object(s), v, f) == Accepts(re, root, Object(s), v, g)
  {
    AcceptsByClause(re, root, s, v, f);
    AcceptsByClause(re, root, s, v, g);
  }

  lemma {:induction false} SameMet(re: Patterns, root: Json, s: Fields, v: Json, c: seq<Goal>, height: nat, f: nat, g: nat)
    requires c in Clauses(s, v) && (forall x | x in Below(s) :: Shallow(x, height)) && 2 * height + 2 <= f && 2 * height + 2 <= g
    ensures Met(re, root, c, f) == Met(re, root, c, g)
    decreases height, 1
  {
    forall goal | goal in c
      ensures Accepts(re, root, goal.schema, goal.value, JsonSchema.Below(f, goal.part))
           == Accepts(re, root, goal.schema, goal.value, JsonSchema.Below(g, goal.part))
    {
      ClauseIsBelow(s, v, c, goal);
      if height > 0 {
        ShallowIsExact(re, root, goal.schema, goal.value, height, JsonSchema.Below(f, goal.part), JsonSchema.Below(g, goal.part));
      }
    }
  }

  /**
   * A schema without references, whatever its keywords, is judged alike by all bounds of twice its height and more. So the
   * code's bound of 64 levels, which leaves 65, is not noticed by schemas nested at most 32 deep.
   */
  lemma {:induction false} ShallowIsExact(re: Patterns, root: Json, schema: Json, v: Json, height: nat, f: nat, g: nat)
    requires Shallow(schema, height) && 2 * height <= f && 2 * height <= g
    ensures Accepts(re, root, schema, v, f) == Accepts(re, root, schema, v, g)
    decreases height, 0
  {
    if schema.Object? { ShallowNode(re, root, schema.fields, v, height - 1, f, g); }
  }

  lemma {:induction false} ShallowNode(re: Patterns, root: Json, s: Fields, v: Json, height: nat, f: nat, g: nat)
    requires "$ref" !in s && (forall x | x in Below(s) :: Shallow(x, height)) && 2 * height + 2 <= f && 2 * height + 2 <= g
    ensures Accepts(re, root, Object(s), v, f) == Accepts(re, root, Object(s), v, g)
    decreases height, 3
  {
    SameClauses(re, root, s, v, height, f, g);
    SameBranches(re, root, s, v, height, f - 1, g - 1);
    SameNode(re, root, s, v, f, g);
  }

  lemma {:induction false} SameClauses(re: Patterns, root: Json, s: Fields, v: Json, height: nat, f: nat, g: nat)
    requires (forall x | x in Below(s) :: Shallow(x, height)) && 2 * height + 2 <= f && 2 * height + 2 <= g
    ensures ClausesMet(re, root, Clauses(s, v), f) == ClausesMet(re, root, Clauses(s, v), g)
    decreases height, 2
  {
    forall c | c in Clauses(s, v) ensures Met(re, root, c, f) == Met(re, root, c, g) { SameMet(re, root, s, v, c, height, f, g); }
  }

  lemma {:induction false} SameBranches(re: Patterns, root: Json, s: Fields, v: Json, height: nat, f: nat, g: nat)
    requires (forall x | x in Below(s) :: Shallow(x, height)) && 2 * height <= f && 2 * height <= g
    ensures Matches(re, root, Branches(s, "oneOf"), v, f) == Matches(re, root, Branches(s, "oneOf"), v, g)
    ensures "not" in s ==> Accepts(re, root, s["not"], v, f) == Accepts(re, root, s["not"], v, g)
    decreases height, 1
  {
    forall b | b in Branches(s, "oneOf") ensures Accepts(re, root, b, v, f) == Accepts(re, root, b, v, g) {
      assert b in Below(s);
      ShallowIsExact(re, root, b, v, height, f, g);
    }
    SameMatches(re, root, Branches(s, "oneOf"), v, f, g);
    if "not" in s {
      assert s["not"] in Below(s);
      ShallowIsExact(re, root, s["not"], v, height, f, g);
    }
  }

  /** What the code decides for such a schema is what every larger bound decides. */
  lemma BoundIsNotNoticed(re: Patterns, root: Json, schema: Json, v: Json, fuel: nat)
    requires Shallow(schema, 32) && fuel >= 64
    ensures Accepts(re, root, schema, v, MAX_DEPTH + 1) == Accepts(re, root, schema, v, fuel)
  {
    ShallowIsExact(re, root, schema, v, 32, MAX_DEPTH + 1, fuel);
  }
}
