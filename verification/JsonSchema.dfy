/**
 * The plugin manifest's JSON Schema evaluator. A schema may refer to itself, so the evaluator
 * carries a depth and refuses beyond a bound; the meaning without a bound is a least fixed point.
 */
module JsonSchema {
  import opened Common
  import opened JsonPointer

  /** Regular expressions: None for an invalid pattern, else whether the text matches. */
  type Patterns = (string, string) -> Option<bool>

  const MAX_DEPTH: nat := 64

  type Fields = map<string, Json>

  // ---------------------------------------------------------------- keywords that look at one value

  function JsonEqual(a: Json, b: Json): bool {
    if a.Number? && b.Number? then a.value == b.value else a == b
  }

  predicate IsInteger(n: real) {
    n.Floor as real == n
  }

  function Limit(raw: Json): Option<nat> {
    if raw.Number? && raw.value >= 0.0 && IsInteger(raw.value) then Some(raw.value.Floor) else None
  }

  /** A size limit that is absent, or well formed and met. */
  predicate AtLeastLimit(s: Fields, key: string, size: nat) {
    key in s ==> Limit(s[key]).Some? && size >= Limit(s[key]).value
  }

  predicate AtMostLimit(s: Fields, key: string, size: nat) {
    key in s ==> Limit(s[key]).Some? && size <= Limit(s[key]).value
  }

  function OneType(name: string, v: Json): Option<bool> {
    match name
    case "object" => Some(v.Object?)
    case "array" => Some(v.Array?)
    case "string" => Some(v.Str?)
    case "boolean" => Some(v.Bool?)
    case "null" => Some(v.Null?)
    case "number" => Some(v.Number?)
    case "integer" => Some(v.Number? && IsInteger(v.value))
    case _ => None
  }

  /** The first match decides; an unknown type before it is an error. */
  function AnyType(types: seq<Json>, v: Json): Option<bool> {
    if types == [] then Some(false)
    else if !types[0].Str? then None
    else
      var one := OneType(types[0].s, v);
      if one == Some(false) then AnyType(types[1..], v) else one
  }

  predicate TypeOk(s: Fields, v: Json) {
    "type" in s ==>
      match s["type"]
      case Str(name) => OneType(name, v) == Some(true)
      case Array(types) => AnyType(types, v) == Some(true)
      case _ => false
  }

  predicate ConstOk(s: Fields, v: Json) {
    "const" in s ==> JsonEqual(v, s["const"])
  }

  predicate EnumOk(s: Fields, v: Json) {
    "enum" in s ==> s["enum"].Array? && exists i | 0 <= i < |s["enum"].items| :: JsonEqual(v, s["enum"].items[i])
  }

  predicate RequiredOk(s: Fields, o: Fields) {
    "required" in s ==>
      s["required"].Array? && forall r | r in s["required"].items :: r.Str? && r.s != "" && r.s in o
  }

  /** The declared properties; none where the keyword is absent. */
  function Properties(s: Fields): Fields {
    if "properties" in s && s["properties"].Object? then s["properties"].fields else map[]
  }

  predicate ObjectOk(s: Fields, o: Fields) {
    && AtLeastLimit(s, "minProperties", |o|) && AtMostLimit(s, "maxProperties", |o|)
    && ("properties" in s ==> s["properties"].Object?)
    && RequiredOk(s, o)
    && ("additionalProperties" in s && s["additionalProperties"] == Bool(false) ==> o.Keys <= Properties(s).Keys)
  }

  predicate ArrayOk(s: Fields, size: nat) {
    AtLeastLimit(s, "minItems", size) && AtMostLimit(s, "maxItems", size)
  }

  predicate StringOk(re: Patterns, s: Fields, text: string) {
    && AtLeastLimit(s, "minLength", |text|) && AtMostLimit(s, "maxLength", |text|)
    && ("pattern" in s ==> s["pattern"].Str? && re(s["pattern"].s, text) == Some(true))
  }

  predicate NumberOk(s: Fields, n: real) {
    && ("minimum" in s ==> s["minimum"].Number? && n >= s["minimum"].value)
    && ("maximum" in s ==> s["maximum"].Number? && n <= s["maximum"].value)
    && ("exclusiveMinimum" in s ==> s["exclusiveMinimum"].Number? && n > s["exclusiveMinimum"].value)
    && ("exclusiveMaximum" in s ==> s["exclusiveMaximum"].Number? && n < s["exclusiveMaximum"].value)
  }

  /** A list of branches: absent, or an array that is not empty. */
  predicate BranchesOk(s: Fields, key: string) {
    key in s ==> s[key].Array? && s[key].items != []
  }

  function Branches(s: Fields, key: string): seq<Json> {
    if key in s && s[key].Array? then s[key].items else []
  }

  predicate ValueOk(re: Patterns, s: Fields, v: Json) {
    && ConstOk(s, v) && EnumOk(s, v) && TypeOk(s, v)
    && match v
       case Object(o) => ObjectOk(s, o)
       case Array(items) => ArrayOk(s, |items|)
       case Str(text) => StringOk(re, s, text)
       case Number(_, n) => NumberOk(s, n)
       case _ => true
  }

  /** Everything about a schema node and a value that needs no other schema. */
  predicate Local(re: Patterns, s: Fields, v: Json) {
    BranchesOk(s, "allOf") && BranchesOk(s, "anyOf") && BranchesOk(s, "oneOf") && ValueOk(re, s, v)
  }

  // ---------------------------------------------------------------- keywords that look further

  /** A value to be held against another schema; one level deeper, or two for parts of the value. */
  datatype Goal = Goal(schema: Json, value: Json, part: bool)

  /** The goals that must all be met, each by one of its alternatives. */
  function Clauses(s: Fields, v: Json): set<seq<Goal>> {
    AllOfClauses(s, v) + AnyOfClauses(s, v) + PropertyClauses(s, v) + AdditionalClauses(s, v) + ItemClauses(s, v)
  }

  function AllOfClauses(s: Fields, v: Json): set<seq<Goal>> {
    set b | b in Branches(s, "allOf") :: [Goal(b, v, false)]
  }

  function AnyOfClauses(s: Fields, v: Json): set<seq<Goal>> {
    if "anyOf" in s then {Alternatives(Branches(s, "anyOf"), v)} else {}
  }

  function Alternatives(branches: seq<Json>, v: Json): seq<Goal> {
    seq(|branches|, i requires 0 <= i < |branches| => Goal(branches[i], v, false))
  }

  function PropertyClauses(s: Fields, v: Json): set<seq<Goal>> {
    if v.Object? then set k | k in v.fields.Keys * Properties(s).Keys :: [Goal(Properties(s)[k], v.fields[k], true)] else {}
  }

  function AdditionalClauses(s: Fields, v: Json): set<seq<Goal>> {
    if v.Object? && "additionalProperties" in s && !s["additionalProperties"].Bool?
    then set k | k in v.fields.Keys - Properties(s).Keys :: [Goal(s["additionalProperties"], v.fields[k], true)]
    else {}
  }

  function ItemClauses(s: Fields, v: Json): set<seq<Goal>> {
    if v.Array? && "items" in s then set x | x in v.items :: [Goal(s["items"], x, true)] else {}
  }

  /** The schema a node refers to, if it is a reference that resolves. */
  function Referred(root: Json, s: Fields): Option<Json> {
    if "$ref" in s && s["$ref"].Str? then Target(root, s["$ref"].s) else None
  }

  // ---------------------------------------------------------------- with a bound

  /** Levels left for a goal. */
  function Below(fuel: nat, part: bool): nat {
    if fuel < 2 then 0 else if part then fuel - 2 else fuel - 1
  }

  /** Acceptance with this many levels left. */
  predicate Accepts(re: Patterns, root: Json, schema: Json, v: Json, fuel: nat)
    decreases fuel, 0
  {
    fuel > 0 &&
    match schema
    case Bool(allowed) => allowed
    case Object(s) =>
      if "$ref" in s then
        Referred(root, s).Some? && Accepts(re, root, Referred(root, s).value, v, fuel - 1)
      else
        && Local(re, s, v)
        && (forall c | c in Clauses(s, v) :: exists g | g in c :: Accepts(re, root, g.schema, g.value, Below(fuel, g.part)))
        && ("oneOf" in s ==> Matches(re, root, Branches(s, "oneOf"), v, fuel - 1) == 1)
        && ("not" in s ==> !Accepts(re, root, s["not"], v, fuel - 1))
    case _ => false
  }

  /** How many branches accept. */
  function Matches(re: Patterns, root: Json, branches: seq<Json>, v: Json, fuel: nat): nat
    decreases fuel, 1 + |branches|
  {
    if branches == [] then 0
    else
      var last := branches[|branches| - 1];
      Matches(re, root, branches[..|branches| - 1], v, fuel) + if Accepts(re, root, last, v, fuel) then 1 else 0
  }

  // ---------------------------------------------------------------- without a bound

  /** The unbounded meaning, for schemas without negation. */
  least predicate Means(re: Patterns, root: Json, schema: Json, v: Json) {
    || schema == Bool(true)
    || (schema.Object? &&
        if "$ref" in schema.fields then
          Referred(root, schema.fields).Some? && Means(re, root, Referred(root, schema.fields).value, v)
        else
          && "oneOf" !in schema.fields && "not" !in schema.fields
          && Local(re, schema.fields, v)
          && forall c | c in Clauses(schema.fields, v) :: exists g | g in c :: Means(re, root, g.schema, g.value))
  }

  /** The schemas a node may be evaluated through. */
  function SubSchemas(root: Json, s: Fields): set<Json> {
    if "$ref" in s then (if Referred(root, s).Some? then {Referred(root, s).value} else {})
    else
      (set b | b in Branches(s, "allOf")) + (set b | b in Branches(s, "anyOf"))
      + Properties(s).Values
      + (if "additionalProperties" in s then {s["additionalProperties"]} else {})
      + (if "items" in s then {s["items"]} else {})
  }

  /** A set of schemas, closed under evaluation, none of which uses `not` or `oneOf`. */
  predicate Positive(root: Json, schemas: set<Json>) {
    forall x | x in schemas && x.Object? ::
      && ("$ref" in x.fields || ("not" !in x.fields && "oneOf" !in x.fields))
      && SubSchemas(root, x.fields) <= schemas
  }

  lemma ClausesStayIn(root: Json, s: Fields, v: Json, schemas: set<Json>, c: seq<Goal>, g: Goal)
    requires "$ref" !in s && SubSchemas(root, s) <= schemas && c in Clauses(s, v) && g in c
    ensures g.schema in schemas
  {
    if c in PropertyClauses(s, v) {
      var k :| k in v.fields.Keys * Properties(s).Keys && c == [Goal(Properties(s)[k], v.fields[k], true)];
      assert Properties(s)[k] in Properties(s).Values;
    }
  }

  // ---------------------------------------------------------------- the bound only refuses

  /** Some alternative of the clause is accepted, below a node with this many levels left. */
  predicate Met(re: Patterns, root: Json, c: seq<Goal>, fuel: nat) {
    exists g | g in c :: Accepts(re, root, g.schema, g.value, Below(fuel, g.part))
  }

  /** Acceptance of a node without reference and negation, clause by clause. */
  lemma AcceptsNode(re: Patterns, root: Json, schema: Json, v: Json, fuel: nat)
    requires schema.Object? && "$ref" !in schema.fields && "not" !in schema.fields && "oneOf" !in schema.fields && fuel > 0
    ensures Accepts(re, root, schema, v, fuel) <==>
            Local(re, schema.fields, v) && forall c | c in Clauses(schema.fields, v) :: Met(re, root, c, fuel)
  {
  }

  lemma MoreNode(re: Patterns, root: Json, schema: Json, v: Json, fuel: nat, more: nat)
    requires schema.Object? && "$ref" !in schema.fields && "not" !in schema.fields && "oneOf" !in schema.fields && fuel <= more
    requires Accepts(re, root, schema, v, fuel)
    requires forall c | c in Clauses(schema.fields, v) && Met(re, root, c, fuel) :: Met(re, root, c, more)
    ensures Accepts(re, root, schema, v, more)
  {
    AcceptsNode(re, root, schema, v, fuel);
    AcceptsNode(re, root, schema, v, more);
  }

  /** Without negation, what is accepted within a bound is accepted within every larger one. */
  lemma {:induction false} MoreFuel(re: Patterns, root: Json, schemas: set<Json>, schema: Json, v: Json, fuel: nat, more: nat)
    requires Positive(root, schemas) && schema in schemas && Accepts(re, root, schema, v, fuel) && fuel <= more
    ensures Accepts(re, root, schema, v, more)
    decreases fuel, 1
  {
    if schema.Object? {
      var s := schema.fields;
      if "$ref" in s {
        MoreFuel(re, root, schemas, Referred(root, s).value, v, fuel - 1, more - 1);
      } else {
        forall c | c in Clauses(s, v) && Met(re, root, c, fuel) ensures Met(re, root, c, more) {
          MoreClause(re, root, schemas, s, v, c, fuel, more);
        }
        MoreNode(re, root, schema, v, fuel, more);
      }
    }
  }

  lemma {:induction false} MoreClause(re: Patterns, root: Json, schemas: set<Json>, s: Fields, v: Json, c: seq<Goal>, fuel: nat, more: nat)
    requires Positive(root, schemas) && "$ref" !in s && SubSchemas(root, s) <= schemas && c in Clauses(s, v)
    requires 0 < fuel <= more && Met(re, root, c, fuel)
    ensures Met(re, root, c, more)
    decreases fuel, 0
  {
    var g :| g in c && Accepts(re, root, g.schema, g.value, Below(fuel, g.part));
    ClausesStayIn(root, s, v, schemas, c, g);
    MoreFuel(re, root, schemas, g.schema, g.value, Below(fuel, g.part), Below(more, g.part));
  }

  /** And it is accepted by the unbounded meaning. */
  lemma {:induction false} AcceptedIsMeant(re: Patterns, root: Json, schemas: set<Json>, schema: Json, v: Json, fuel: nat)
    requires Positive(root, schemas) && schema in schemas && Accepts(re, root, schema, v, fuel)
    ensures Means(re, root, schema, v)
    decreases fuel
  {
    if schema.Object? {
      var s := schema.fields;
      if "$ref" in s {
        AcceptedIsMeant(re, root, schemas, Referred(root, s).value, v, fuel - 1);
      } else {
        AcceptsNode(re, root, schema, v, fuel);
        forall c | c in Clauses(s, v) ensures exists g | g in c :: Means(re, root, g.schema, g.value) {
          assert Met(re, root, c, fuel);
          var g :| g in c && Accepts(re, root, g.schema, g.value, Below(fuel, g.part));
          ClausesStayIn(root, s, v, schemas, c, g);
          AcceptedIsMeant(re, root, schemas, g.schema, g.value, Below(fuel, g.part));
        }
      }
    }
  }

  // ---------------------------------------------------------------- some bound is enough

  lemma MoreMet(re: Patterns, root: Json, schemas: set<Json>, c: seq<Goal>, fuel: nat, more: nat)
    requires Positive(root, schemas) && (forall g | g in c :: g.schema in schemas) && Met(re, root, c, fuel) && fuel <= more
    ensures Met(re, root, c, more)
  {
    var g :| g in c && Accepts(re, root, g.schema, g.value, Below(fuel, g.part));
    MoreFuel(re, root, schemas, g.schema, g.value, Below(fuel, g.part), Below(more, g.part));
  }

  /** Finitely many clauses, each met within some bound, are met within one. */
  lemma {:induction false} CommonBound(re: Patterns, root: Json, schemas: set<Json>, clauses: set<seq<Goal>>) returns (fuel: nat)
    requires Positive(root, schemas) && forall c, g | c in clauses && g in c :: g.schema in schemas
    requires forall c | c in clauses :: exists f: nat :: Met(re, root, c, f)
    ensures forall c | c in clauses :: Met(re, root, c, fuel)
    decreases clauses
  {
    if clauses == {} {
      fuel := 0;
    } else {
      var c :| c in clauses;
      var f: nat :| Met(re, root, c, f);
      var rest := CommonBound(re, root, schemas, clauses - {c});
      fuel := Max(f, rest);
      forall d | d in clauses ensures Met(re, root, d, fuel) {
        MoreMet(re, root, schemas, d, if d == c then f else rest, fuel);
      }
    }
  }

  lemma GoalBound(re: Patterns, root: Json, schemas: set<Json>, c: seq<Goal>, g: Goal, fuel: nat)
    requires Positive(root, schemas) && g in c && g.schema in schemas && Accepts(re, root, g.schema, g.value, fuel)
    ensures Met(re, root, c, fuel + 2)
  {
    MoreFuel(re, root, schemas, g.schema, g.value, fuel, Below(fuel + 2, g.part));
  }

  lemma NodeBound(re: Patterns, root: Json, schemas: set<Json>, schema: Json, v: Json)
    requires Positive(root, schemas) && schema in schemas && schema.Object? && "$ref" !in schema.fields
    requires Local(re, schema.fields, v) && forall c | c in Clauses(schema.fields, v) :: exists f: nat :: Met(re, root, c, f)
    ensures exists fuel: nat :: Accepts(re, root, schema, v, fuel)
  {
    var s := schema.fields;
    forall c, g | c in Clauses(s, v) && g in c ensures g.schema in schemas { ClausesStayIn(root, s, v, schemas, c, g); }
    var fuel := CommonBound(re, root, schemas, Clauses(s, v));
    forall c | c in Clauses(s, v) ensures Met(re, root, c, fuel + 1) { MoreMet(re, root, schemas, c, fuel, fuel + 1); }
    AcceptsNode(re, root, schema, v, fuel + 1);
  }

  least lemma MeantIsAccepted(re: Patterns, root: Json, schemas: set<Json>, schema: Json, v: Json)
    requires Means(re, root, schema, v)
    requires Positive(root, schemas) && schema in schemas
    ensures exists fuel: nat :: Accepts(re, root, schema, v, fuel)
  {
    if schema == Bool(true) {
      assert Accepts(re, root, schema, v, 1);
    } else if "$ref" in schema.fields {
      var target := Referred(root, schema.fields).value;
      MeantIsAccepted(re, root, schemas, target, v);
      var fuel: nat :| Accepts(re, root, target, v, fuel);
      assert Accepts(re, root, schema, v, fuel + 1);
    } else {
      forall c | c in Clauses(schema.fields, v) ensures exists f: nat :: Met(re, root, c, f) {
        var g :| g in c && Means#[_k - 1](re, root, g.schema, g.value);
        ClausesStayIn(root, schema.fields, v, schemas, c, g);
        MeantIsAccepted(re, root, schemas, g.schema, g.value);
        var fuel: nat :| Accepts(re, root, g.schema, g.value, fuel);
        GoalBound(re, root, schemas, c, g, fuel);
      }
      NodeBound(re, root, schemas, schema, v);
    }
  }

  /**
   * For schemas without `not` and `oneOf`, recursive references included: the unbounded meaning is
   * acceptance within some bound, and the bound of the code never accepts more.
   */
  lemma BoundedIsSound(re: Patterns, root: Json, schemas: set<Json>, schema: Json, v: Json)
    requires Positive(root, schemas) && schema in schemas
    ensures Means(re, root, schema, v) <==> exists fuel: nat :: Accepts(re, root, schema, v, fuel)
    ensures Accepts(re, root, schema, v, MAX_DEPTH + 1) ==> Means(re, root, schema, v)
  {
    if Means(re, root, schema, v) { MeantIsAccepted(re, root, schemas, schema, v); }
    if exists fuel: nat :: Accepts(re, root, schema, v, fuel) {
      var fuel: nat :| Accepts(re, root, schema, v, fuel);
      AcceptedIsMeant(re, root, schemas, schema, v, fuel);
    }
  }

  // ---------------------------------------------------------------- schemas without `not` and `oneOf`

  /** A value and all that it is made of. */
  function Parts(j: Json): set<Json> {
    match j
    case Array(items) => {j} + set i, x | 0 <= i < |items| && x in Parts(items[i]) :: x
    case Object(fields) => {j} + set k, x | k in fields && x in Parts(fields[k]) :: x
    case _ => {j}
  }

  /** No object in the document has a key `not` or `oneOf`. */
  predicate Affirmative(root: Json) {
    forall x | x in Parts(root) && x.Object? :: "not" !in x.fields && "oneOf" !in x.fields
  }

  lemma PartOfItself(j: Json)
    ensures j in Parts(j)
  {
  }

  lemma ItemIsPart(j: Json, i: nat)
    requires j.Array? && i < |j.items|
    ensures j.items[i] in Parts(j)
  {
    PartOfItself(j.items[i]);
  }

  lemma FieldIsPart(j: Json, k: string)
    requires j.Object? && k in j.fields
    ensures j.fields[k] in Parts(j)
  {
    PartOfItself(j.fields[k]);
  }

  /** Parts of parts are parts. */
  lemma {:induction false} PartsOfParts(root: Json, x: Json, y: Json)
    requires x in Parts(root) && y in Parts(x)
    ensures y in Parts(root)
    decreases root
  {
    if x != root {
      match root
      case Array(items) =>
        var i :| 0 <= i < |items| && x in Parts(items[i]);
        PartsOfParts(items[i], x, y);
      case Object(fields) =>
        var k :| k in fields && x in Parts(fields[k]);
        PartsOfParts(fields[k], x, y);
    }
  }

  lemma {:induction false} FollowedIsPart(root: Json, names: seq<string>)
    requires Follow(root, names, Index).Some?
    ensures Follow(root, names, Index).value in Parts(root)
  {
    if names == [] {
      PartOfItself(root);
    } else {
      var before := Follow(root, names[..|names| - 1], Index).value;
      FollowedIsPart(root, names[..|names| - 1]);
      var found := Follow(root, names, Index).value;
      if before.Object? {
        FieldIsPart(before, names[|names| - 1]);
      } else {
        ItemIsPart(before, Index(names[|names| - 1]).value);
      }
      PartsOfParts(root, before, found);
    }
  }

  lemma BranchIsPart(x: Json, key: string, b: Json)
    requires x.Object? && b in Branches(x.fields, key)
    ensures b in Parts(x)
  {
    FieldIsPart(x, key);
    var i :| 0 <= i < |x.fields[key].items| && x.fields[key].items[i] == b;
    ItemIsPart(x.fields[key], i);
    PartsOfParts(x, x.fields[key], b);
  }

  lemma PropertyIsPart(x: Json, k: string)
    requires x.Object? && k in Properties(x.fields)
    ensures Properties(x.fields)[k] in Parts(x)
  {
    FieldIsPart(x, "properties");
    FieldIsPart(x.fields["properties"], k);
    PartsOfParts(x, x.fields["properties"], Properties(x.fields)[k]);
  }

  /** Evaluation never leaves the document. */
  lemma SubSchemaIsPart(root: Json, x: Json, y: Json)
    requires x in Parts(root) && x.Object? && y in SubSchemas(root, x.fields)
    ensures y in Parts(root)
  {
    var s := x.fields;
    if "$ref" in s {
      if s["$ref"].s == "#" {
        PartOfItself(root);
      } else {
        FollowedIsPart(root, UnescapeAll(Split(s["$ref"].s[2..])));
      }
    } else {
      if y in Branches(s, "allOf") {
        BranchIsPart(x, "allOf", y);
      } else if y in Branches(s, "anyOf") {
        BranchIsPart(x, "anyOf", y);
      } else if y in Properties(s).Values {
        var k :| k in Properties(s) && Properties(s)[k] == y;
        PropertyIsPart(x, k);
      } else if "additionalProperties" in s && y == s["additionalProperties"] {
        FieldIsPart(x, "additionalProperties");
      } else {
        FieldIsPart(x, "items");
      }
      PartsOfParts(root, x, y);
    }
  }

  lemma PartsArePositive(root: Json)
    requires Affirmative(root)
    ensures Positive(root, Parts(root))
  {
    forall x | x in Parts(root) && x.Object? ensures SubSchemas(root, x.fields) <= Parts(root) {
      forall y | y in SubSchemas(root, x.fields) ensures y in Parts(root) { SubSchemaIsPart(root, x, y); }
    }
  }

  /**
   * A schema document without `not` and `oneOf`, however its references run: a larger bound accepts
   * what a smaller one does, the unbounded meaning is acceptance within some bound, and the
   * bound of the code accepts nothing else.
   */
  lemma DocumentIsSound(re: Patterns, root: Json, v: Json)
    requires Affirmative(root)
    ensures forall fuel: nat, more: nat | fuel <= more && Accepts(re, root, root, v, fuel) :: Accepts(re, root, root, v, more)
    ensures Means(re, root, root, v) <==> exists fuel: nat :: Accepts(re, root, root, v, fuel)
    ensures Accepts(re, root, root, v, MAX_DEPTH + 1) ==> Means(re, root, root, v)
  {
    PartsArePositive(root);
    PartOfItself(root);
    forall fuel: nat, more: nat | fuel <= more && Accepts(re, root, root, v, fuel) ensures Accepts(re, root, root, v, more) {
      MoreFuel(re, root, Parts(root), root, v, fuel, more);
    }
    BoundedIsSound(re, root, Parts(root), root, v);
  }
}
