/** Event schemas (src/features/event_types/models.rs): a tree of property
    definitions is compiled to a JSON Schema, and payloads are checked against
    the result (validate_against_schema in src/features/events/service.rs).

    JSON Schema is read as the draft 2020-12 documents have it: sections 6.1 to
    6.5 of JSON Schema Validation, and sections 10.3.1 and 10.3.2 of JSON Schema
    Core. `format` and `description` are annotations. */
module EventSchema {
  import opened Wrappers

  /** Object members have distinct names. Numbers are exact. */
  datatype Json =
    | Null
    | Bool(b: bool)
    | Num(n: real)
    | Str(s: string)
    | Arr(items: seq<Json>)
    | Obj(fields: seq<(string, Json)>)

  datatype FieldType = StringType | NumberType | IntegerType | BooleanType | NullType | ObjectType | ArrayType

  datatype StringFormat = Date | DateTime | Uuid | Email | Uri

  /** The property map: distinct names, in any order. */
  datatype Property = Property(name: string, def: PropertyDef)
  datatype Properties = Undeclared | Declared(defs: seq<Property>)

  datatype PropertyDef = PropertyDef(
    fieldType: FieldType,
    format: Option<StringFormat>,
    minLength: Option<nat>,
    maxLength: Option<nat>,
    minimum: Option<real>,
    maximum: Option<real>,
    properties: Properties,
    required: seq<string>,
    items: Option<PropertyDef>,
    minItems: Option<nat>,
    maxItems: Option<nat>,
    description: Option<string>,
    nullable: bool)

  // --- What a definition means, read directly ---

  function Member(fields: seq<(string, Json)>, name: string): Option<Json> {
    if fields == [] then None
    else if fields[0].0 == name then Some(fields[0].1)
    else Member(fields[1..], name)
  }

  predicate Whole(n: real) { n == n.Floor as real }

  predicate AtLeast(bound: Option<real>, n: real) { bound.Some? ==> bound.value <= n }
  predicate AtMost(bound: Option<real>, n: real) { bound.Some? ==> n <= bound.value }
  predicate LongEnough(bound: Option<nat>, n: nat) { bound.Some? ==> bound.value <= n }
  predicate ShortEnough(bound: Option<nat>, n: nat) { bound.Some? ==> n <= bound.value }

  ghost predicate Meets(def: PropertyDef, v: Json)
    decreases def
  {
    (def.nullable && v.Null?) ||
    match def.fieldType
    case StringType => v.Str? && LongEnough(def.minLength, |v.s|) && ShortEnough(def.maxLength, |v.s|)
    case NumberType => v.Num? && AtLeast(def.minimum, v.n) && AtMost(def.maximum, v.n)
    case IntegerType => v.Num? && Whole(v.n) && AtLeast(def.minimum, v.n) && AtMost(def.maximum, v.n)
    case BooleanType => v.Bool?
    case NullType => v.Null?
    case ObjectType =>
      && v.Obj?
      && (forall i | 0 <= i < |def.required| :: Member(v.fields, def.required[i]).Some?)
      && (def.properties.Declared? ==>
            forall i | 0 <= i < |def.properties.defs| ::
              var p := def.properties.defs[i];
              Member(v.fields, p.name).Some? ==> Meets(p.def, Member(v.fields, p.name).value))
    case ArrayType =>
      && v.Arr? && LongEnough(def.minItems, |v.items|) && ShortEnough(def.maxItems, |v.items|)
      && (def.items.Some? ==> forall i | 0 <= i < |v.items| :: Meets(def.items.value, v.items[i]))
  }

  // --- What a JSON Schema means ---

  predicate IsOfType(name: string, v: Json) {
    match v
    case Null => name == "null"
    case Bool(_) => name == "boolean"
    case Num(n) => name == "number" || (name == "integer" && Whole(n))
    case Str(_) => name == "string"
    case Arr(_) => name == "array"
    case Obj(_) => name == "object"
  }

  ghost predicate TypeMatches(arg: Json, v: Json) {
    match arg
    case Str(name) => IsOfType(name, v)
    case Arr(names) => exists i :: 0 <= i < |names| && names[i].Str? && IsOfType(names[i].s, v)
    case _ => false
  }

  /** Each keyword constrains the instance on its own. */
  ghost predicate Accepts(schema: Json, v: Json)
    decreases schema, 0
  {
    match schema
    case Bool(b) => b
    case Obj(fields) => forall i | 0 <= i < |fields| :: Keyword(fields[i].0, fields[i].1, v)
    case _ => false
  }

  ghost predicate Keyword(name: string, arg: Json, v: Json)
    decreases arg, 1
  {
    if name == "type" then TypeMatches(arg, v)
    else if name == "minLength" then v.Str? && arg.Num? ==> arg.n <= |v.s| as real
    else if name == "maxLength" then v.Str? && arg.Num? ==> |v.s| as real <= arg.n
    else if name == "minimum" then v.Num? && arg.Num? ==> arg.n <= v.n
    else if name == "maximum" then v.Num? && arg.Num? ==> v.n <= arg.n
    else if name == "minItems" then v.Arr? && arg.Num? ==> arg.n <= |v.items| as real
    else if name == "maxItems" then v.Arr? && arg.Num? ==> |v.items| as real <= arg.n
    else if name == "properties" then
      v.Obj? && arg.Obj? ==>
        forall i | 0 <= i < |arg.fields| ::
          Member(v.fields, arg.fields[i].0).Some? ==> Accepts(arg.fields[i].1, Member(v.fields, arg.fields[i].0).value)
    else if name == "required" then
      v.Obj? && arg.Arr? ==>
        forall i | 0 <= i < |arg.items| && arg.items[i].Str? :: Member(v.fields, arg.items[i].s).Some?
    else if name == "items" then v.Arr? ==> forall i | 0 <= i < |v.items| :: Accepts(arg, v.items[i])
    else true
  }

  predicate SimpleType(j: Json) {
    j.Str? && j.s in ["array", "boolean", "integer", "null", "number", "object", "string"]
  }

  predicate DistinctItems(items: seq<Json>) {
    forall i, j | 0 <= i < j < |items| :: items[i] != items[j]
  }

  /** The draft's meta-schema, for the keywords in use. */
  ghost predicate WellFormedSchema(schema: Json)
    decreases schema, 0
  {
    match schema
    case Bool(_) => true
    case Obj(fields) => forall i | 0 <= i < |fields| :: WellFormedKeyword(fields[i].0, fields[i].1)
    case _ => false
  }

  ghost predicate WellFormedKeyword(name: string, arg: Json)
    decreases arg, 1
  {
    if name == "type" then
      SimpleType(arg) ||
      (&& arg.Arr? && arg.items != [] && DistinctItems(arg.items)
       && forall i | 0 <= i < |arg.items| :: SimpleType(arg.items[i]))
    else if name in ["minLength", "maxLength", "minItems", "maxItems"] then arg.Num? && arg.n >= 0.0 && Whole(arg.n)
    else if name in ["minimum", "maximum"] then arg.Num?
    else if name == "properties" then
      arg.Obj? && forall i | 0 <= i < |arg.fields| :: WellFormedSchema(arg.fields[i].1)
    else if name == "required" then
      arg.Arr? && DistinctItems(arg.items) && forall i | 0 <= i < |arg.items| :: arg.items[i].Str?
    else if name == "items" then WellFormedSchema(arg)
    else if name in ["format", "description"] then arg.Str?
    else true
  }

  // --- The compiler ---

  function TypeName(t: FieldType): string {
    match t
    case StringType => "string"
    case NumberType => "number"
    case IntegerType => "integer"
    case BooleanType => "boolean"
    case NullType => "null"
    case ObjectType => "object"
    case ArrayType => "array"
  }

  function FormatName(f: StringFormat): string {
    match f
    case Date => "date"
    case DateTime => "date-time"
    case Uuid => "uuid"
    case Email => "email"
    case Uri => "uri"
  }

  function TypeArg(def: PropertyDef): Json {
    if def.nullable then Arr([Str(TypeName(def.fieldType)), Str("null")]) else Str(TypeName(def.fieldType))
  }

  /** `if let Some(v) = arg { s.insert(name, v) }` */
  function Insert(s: seq<(string, Json)>, name: string, arg: Option<Json>): seq<(string, Json)> {
    if arg.Some? then s + [(name, arg.value)] else s
  }

  function Count(n: Option<nat>): Option<Json> { if n.Some? then Some(Num(n.value as real)) else None }
  function Real(n: Option<real>): Option<Json> { if n.Some? then Some(Num(n.value)) else None }
  function Strings(names: seq<string>): Json { Arr(seq(|names|, i requires 0 <= i < |names| => Str(names[i]))) }

  function CompileAll(defs: seq<Property>): (fields: seq<(string, Json)>)
    ensures |fields| == |defs|
    ensures forall i | 0 <= i < |defs| :: fields[i] == (defs[i].name, ToJsonSchema(defs[i].def))
    decreases defs
  {
    if defs == [] then []
    else [(defs[0].name, ToJsonSchema(defs[0].def))] + CompileAll(defs[1..])
  }

  function FormatArg(def: PropertyDef): Option<Json> {
    if def.format.Some? then Some(Str(FormatName(def.format.value))) else None
  }

  function RequiredArg(def: PropertyDef): Option<Json> {
    if def.required != [] then Some(Strings(def.required)) else None
  }

  function DescriptionArg(def: PropertyDef): Option<Json> {
    if def.description.Some? then Some(Str(def.description.value)) else None
  }

  function PropertiesArg(def: PropertyDef): Option<Json>
    decreases def, 0
  {
    if def.properties.Declared? then Some(Obj(CompileAll(def.properties.defs))) else None
  }

  function ItemsArg(def: PropertyDef): Option<Json>
    decreases def, 0
  {
    if def.items.Some? then Some(ToJsonSchema(def.items.value)) else None
  }

  type Fields = seq<(string, Json)>

  function Lengths(s: Fields, def: PropertyDef): Fields {
    var s := Insert(s, "format", FormatArg(def));
    var s := Insert(s, "minLength", Count(def.minLength));
    Insert(s, "maxLength", Count(def.maxLength))
  }

  function Bounds(s: Fields, def: PropertyDef): Fields {
    var s := Insert(s, "minimum", Real(def.minimum));
    var s := Insert(s, "maximum", Real(def.maximum));
    var s := Insert(s, "minItems", Count(def.minItems));
    Insert(s, "maxItems", Count(def.maxItems))
  }

  function Scalars(def: PropertyDef): Fields {
    Bounds(Lengths([("type", TypeArg(def))], def), def)
  }

  function Nested(s: Fields, def: PropertyDef): Fields
    decreases def, 1
  {
    var s := Insert(s, "properties", PropertiesArg(def));
    var s := Insert(s, "required", RequiredArg(def));
    Insert(s, "items", ItemsArg(def))
  }

  function ToJsonSchema(def: PropertyDef): Json
    decreases def, 2
  {
    Obj(Insert(Nested(Scalars(def), def), "description", DescriptionArg(def)))
  }

  /** to_json_schema as it is written: it fills a local map, insert by insert. */
  method BuildJsonSchema(def: PropertyDef) returns (schema: Json)
    ensures schema == ToJsonSchema(def)
    decreases def, 2
  {
    var s := [("type", Str(TypeName(def.fieldType)))];
    if def.nullable {
      s := [("type", Arr([Str(TypeName(def.fieldType)), Str("null")]))];
    }
    s := Lengths(s, def);
    s := Bounds(s, def);
    assert s == Scalars(def);
    if def.properties.Declared? {
      var props := BuildProperties(def);
      s := s + [("properties", Obj(props))];
    }
    s := Insert(s, "required", RequiredArg(def));
    if def.items.Some? {
      var each := BuildJsonSchema(def.items.value);
      s := s + [("items", each)];
    }
    assert s == Nested(Scalars(def), def);
    schema := Obj(Insert(s, "description", DescriptionArg(def)));
  }

  method BuildProperties(def: PropertyDef) returns (props: Fields)
    requires def.properties.Declared?
    ensures props == CompileAll(def.properties.defs)
    decreases def, 0
  {
    var defs := def.properties.defs;
    ghost var all := CompileAll(defs);
    props := [];
    for i := 0 to |defs|
      invariant props == all[..i]
    {
      var sub := BuildJsonSchema(defs[i].def);
      assert all[i] == (defs[i].name, sub);
      props := props + [(defs[i].name, sub)];
    }
  }

  // --- The compiled schema means the definition ---

  /** The keyword, if it is there, accepts `v`. */
  ghost predicate Allows(name: string, arg: Option<Json>, v: Json) {
    arg.Some? ==> Keyword(name, arg.value, v)
  }

  lemma InsertMeans(s: seq<(string, Json)>, name: string, arg: Option<Json>, v: Json)
    ensures Accepts(Obj(Insert(s, name, arg)), v) <==> Accepts(Obj(s), v) && Allows(name, arg, v)
  {
    var s' := Insert(s, name, arg);
    if arg.Some? {
      assert s'[|s|] == (name, arg.value);
      assert forall i | 0 <= i < |s| :: s'[i] == s[i];
    }
  }

  lemma LengthsMean(s: Fields, def: PropertyDef, v: Json)
    ensures Accepts(Obj(Lengths(s, def)), v) <==>
            && Accepts(Obj(s), v) && Allows("format", FormatArg(def), v)
            && Allows("minLength", Count(def.minLength), v) && Allows("maxLength", Count(def.maxLength), v)
  {
    InsertMeans(s, "format", FormatArg(def), v);
    var s := Insert(s, "format", FormatArg(def));
    InsertMeans(s, "minLength", Count(def.minLength), v);
    InsertMeans(Insert(s, "minLength", Count(def.minLength)), "maxLength", Count(def.maxLength), v);
  }

  lemma BoundsMean(s: Fields, def: PropertyDef, v: Json)
    ensures Accepts(Obj(Bounds(s, def)), v) <==>
            && Accepts(Obj(s), v)
            && Allows("minimum", Real(def.minimum), v) && Allows("maximum", Real(def.maximum), v)
            && Allows("minItems", Count(def.minItems), v) && Allows("maxItems", Count(def.maxItems), v)
  {
    InsertMeans(s, "minimum", Real(def.minimum), v);
    var s := Insert(s, "minimum", Real(def.minimum));
    InsertMeans(s, "maximum", Real(def.maximum), v);
    var s2 := Insert(s, "maximum", Real(def.maximum));
    InsertMeans(s2, "minItems", Count(def.minItems), v);
    InsertMeans(Insert(s2, "minItems", Count(def.minItems)), "maxItems", Count(def.maxItems), v);
  }

  ghost predicate ScalarsAllow(def: PropertyDef, v: Json) {
    && Keyword("type", TypeArg(def), v) && Allows("format", FormatArg(def), v)
    && Allows("minLength", Count(def.minLength), v) && Allows("maxLength", Count(def.maxLength), v)
    && Allows("minimum", Real(def.minimum), v) && Allows("maximum", Real(def.maximum), v)
    && Allows("minItems", Count(def.minItems), v) && Allows("maxItems", Count(def.maxItems), v)
  }

  lemma ScalarsMean(def: PropertyDef, v: Json)
    ensures Accepts(Obj(Scalars(def)), v) <==> ScalarsAllow(def, v)
  {
    var s := [("type", TypeArg(def))];
    assert Accepts(Obj(s), v) <==> Keyword(s[0].0, s[0].1, v);
    LengthsMean(s, def, v);
    BoundsMean(Lengths(s, def), def, v);
  }

  lemma NestedMeans(s: Fields, def: PropertyDef, v: Json)
    ensures Accepts(Obj(Nested(s, def)), v) <==>
            && Accepts(Obj(s), v) && Allows("properties", PropertiesArg(def), v)
            && Allows("required", RequiredArg(def), v) && Allows("items", ItemsArg(def), v)
  {
    InsertMeans(s, "properties", PropertiesArg(def), v);
    var s2 := Insert(s, "properties", PropertiesArg(def));
    InsertMeans(s2, "required", RequiredArg(def), v);
    var s3 := Insert(s2, "required", RequiredArg(def));
    InsertMeans(s3, "items", ItemsArg(def), v);
  }

  lemma DescriptionAllows(def: PropertyDef, v: Json)
    ensures Allows("description", DescriptionArg(def), v)
  {
  }

  /** Keyword by keyword. */
  lemma SchemaMeans(def: PropertyDef, v: Json)
    ensures Accepts(ToJsonSchema(def), v) <==>
            && ScalarsAllow(def, v)
            && Allows("properties", PropertiesArg(def), v)
            && Allows("required", RequiredArg(def), v)
            && Allows("items", ItemsArg(def), v)
  {
    ScalarsMean(def, v);
    NestedMeans(Scalars(def), def, v);
    InsertMeans(Nested(Scalars(def), def), "description", DescriptionArg(def), v);
    DescriptionAllows(def, v);
  }

  lemma TypeMeans(def: PropertyDef, v: Json)
    ensures Keyword("type", TypeArg(def), v)
        <==> (def.nullable && v.Null?) || IsOfType(TypeName(def.fieldType), v)
  {
    var arg := TypeArg(def);
    if def.nullable {
      assert arg.items[0] == Str(TypeName(def.fieldType)) && arg.items[1] == Str("null");
    }
  }

  lemma ScalarsByKind(def: PropertyDef, v: Json)
    ensures ScalarsAllow(def, v) <==>
            && ((def.nullable && v.Null?) || IsOfType(TypeName(def.fieldType), v))
            && (v.Str? ==> LongEnough(def.minLength, |v.s|) && ShortEnough(def.maxLength, |v.s|))
            && (v.Num? ==> AtLeast(def.minimum, v.n) && AtMost(def.maximum, v.n))
            && (v.Arr? ==> LongEnough(def.minItems, |v.items|) && ShortEnough(def.maxItems, |v.items|))
  {
    TypeMeans(def, v);
  }

  lemma RequiredMeans(def: PropertyDef, v: Json)
    ensures Allows("required", RequiredArg(def), v)
        <==> (v.Obj? ==> forall i | 0 <= i < |def.required| :: Member(v.fields, def.required[i]).Some?)
  {
    if v.Obj? && def.required != [] {
      var arg := Strings(def.required);
      assert forall i | 0 <= i < |def.required| :: arg.items[i] == Str(def.required[i]);
    }
  }

  /** Each declared property that the object has is accepted by its own schema. */
  ghost predicate PropertiesAccept(defs: seq<Property>, fields: Fields) {
    forall i | 0 <= i < |defs| ::
      var at := Member(fields, defs[i].name);
      at.Some? ==> Accepts(ToJsonSchema(defs[i].def), at.value)
  }

  ghost predicate ItemsAccept(def: PropertyDef, items: seq<Json>) {
    forall i | 0 <= i < |items| :: Accepts(ToJsonSchema(def), items[i])
  }

  lemma PropertiesMean(def: PropertyDef, v: Json)
    ensures Allows("properties", PropertiesArg(def), v)
        <==> (v.Obj? && def.properties.Declared? ==> PropertiesAccept(def.properties.defs, v.fields))
  {
  }

  lemma ItemsMean(def: PropertyDef, v: Json)
    ensures Allows("items", ItemsArg(def), v)
        <==> (v.Arr? && def.items.Some? ==> ItemsAccept(def.items.value, v.items))
  {
  }

  lemma AcceptsByKind(def: PropertyDef, v: Json)
    ensures Accepts(ToJsonSchema(def), v) <==>
            && ScalarsAllow(def, v)
            && (v.Obj? ==> forall i | 0 <= i < |def.required| :: Member(v.fields, def.required[i]).Some?)
            && (v.Obj? && def.properties.Declared? ==> PropertiesAccept(def.properties.defs, v.fields))
            && (v.Arr? && def.items.Some? ==> ItemsAccept(def.items.value, v.items))
  {
    SchemaMeans(def, v);
    RequiredMeans(def, v);
    PropertiesMean(def, v);
    ItemsMean(def, v);
  }

  /** For every definition and every value, at every depth: the compiled schema
      accepts the value exactly when the value meets the definition. */
  lemma {:induction false} CompilationPreservesMeaning(def: PropertyDef, v: Json)
    ensures Accepts(ToJsonSchema(def), v) <==> Meets(def, v)
    decreases def
  {
    AcceptsByKind(def, v);
    ScalarsByKind(def, v);
    if v.Obj? && def.properties.Declared? {
      var defs := def.properties.defs;
      forall i | 0 <= i < |defs| && Member(v.fields, defs[i].name).Some?
        ensures var at := Member(v.fields, defs[i].name).value;
                Accepts(ToJsonSchema(defs[i].def), at) <==> Meets(defs[i].def, at)
      {
        CompilationPreservesMeaning(defs[i].def, Member(v.fields, defs[i].name).value);
      }
    }
    if v.Arr? && def.items.Some? {
      forall i | 0 <= i < |v.items|
        ensures Accepts(ToJsonSchema(def.items.value), v.items[i]) <==> Meets(def.items.value, v.items[i])
      {
        CompilationPreservesMeaning(def.items.value, v.items[i]);
      }
    }
  }

  // --- The annotations, which no payload can tell apart ---

  lemma {:induction false} InsertHas(s: Fields, name: string, arg: Option<Json>, sought: string)
    ensures Member(Insert(s, name, arg), sought)
         == if Member(s, sought).Some? then Member(s, sought) else if name == sought then arg else None
  {
    if s != [] {
      InsertHas(s[1..], name, arg, sought);
      assert Insert(s, name, arg)[1..] == Insert(s[1..], name, arg);
    }
  }

  lemma LengthsHave(s: Fields, def: PropertyDef, sought: string)
    requires sought == "format" || sought == "description"
    ensures Member(Lengths(s, def), sought)
         == if Member(s, sought).Some? then Member(s, sought) else if sought == "format" then FormatArg(def) else None
  {
    var s1 := Insert(s, "format", FormatArg(def));
    InsertHas(s, "format", FormatArg(def), sought);
    InsertHas(s1, "minLength", Count(def.minLength), sought);
    InsertHas(Insert(s1, "minLength", Count(def.minLength)), "maxLength", Count(def.maxLength), sought);
  }

  lemma BoundsHave(s: Fields, def: PropertyDef, sought: string)
    requires sought == "format" || sought == "description"
    ensures Member(Bounds(s, def), sought) == Member(s, sought)
  {
    InsertHas(s, "minimum", Real(def.minimum), sought);
    var s := Insert(s, "minimum", Real(def.minimum));
    InsertHas(s, "maximum", Real(def.maximum), sought);
    var s2 := Insert(s, "maximum", Real(def.maximum));
    InsertHas(s2, "minItems", Count(def.minItems), sought);
    InsertHas(Insert(s2, "minItems", Count(def.minItems)), "maxItems", Count(def.maxItems), sought);
  }

  lemma NestedHave(s: Fields, def: PropertyDef, sought: string)
    requires sought == "format" || sought == "description"
    ensures Member(Nested(s, def), sought) == Member(s, sought)
  {
    InsertHas(s, "properties", PropertiesArg(def), sought);
    var s2 := Insert(s, "properties", PropertiesArg(def));
    InsertHas(s2, "required", RequiredArg(def), sought);
    InsertHas(Insert(s2, "required", RequiredArg(def)), "items", ItemsArg(def), sought);
  }

  /** `format` and `description` reach the compiled schema as they were declared. */
  lemma AnnotationsAreKept(def: PropertyDef)
    ensures var compiled := ToJsonSchema(def);
            && compiled.Obj?
            && Member(compiled.fields, "description")
               == (if def.description.Some? then Some(Str(def.description.value)) else None)
            && (Member(compiled.fields, "format").None? <==> def.format.None?)
            && (def.format == Some(Date) ==> Member(compiled.fields, "format") == Some(Str("date")))
            && (def.format == Some(DateTime) ==> Member(compiled.fields, "format") == Some(Str("date-time")))
            && (def.format == Some(Uuid) ==> Member(compiled.fields, "format") == Some(Str("uuid")))
            && (def.format == Some(Email) ==> Member(compiled.fields, "format") == Some(Str("email")))
            && (def.format == Some(Uri) ==> Member(compiled.fields, "format") == Some(Str("uri")))
  {
    CompiledHas(def, "format");
    CompiledHas(def, "description");
  }

  lemma CompiledHas(def: PropertyDef, sought: string)
    requires sought == "format" || sought == "description"
    ensures Member(ToJsonSchema(def).fields, sought)
         == if sought == "format" then FormatArg(def) else DescriptionArg(def)
  {
    var s := [("type", TypeArg(def))];
    assert Member(s, sought) == Member(s[1..], sought) == None;
    LengthsHave(s, def, sought);
    BoundsHave(Lengths(s, def), def, sought);
    NestedHave(Scalars(def), def, sought);
    InsertHas(Nested(Scalars(def), def), "description", DescriptionArg(def), sought);
  }

  // --- When the compiled schema is a schema at all ---

  predicate DistinctNames(names: seq<string>) {
    forall i, j | 0 <= i < j < |names| :: names[i] != names[j]
  }

  /** No nullable null and no repeated `required` name, at any depth. */
  ghost predicate Compilable(def: PropertyDef)
    decreases def
  {
    && !(def.nullable && def.fieldType == NullType)
    && DistinctNames(def.required)
    && (def.properties.Declared? ==>
          forall i | 0 <= i < |def.properties.defs| :: Compilable(def.properties.defs[i].def))
    && (def.items.Some? ==> Compilable(def.items.value))
  }

  ghost predicate Formed(name: string, arg: Option<Json>) {
    arg.Some? ==> WellFormedKeyword(name, arg.value)
  }

  lemma InsertForms(s: Fields, name: string, arg: Option<Json>)
    ensures WellFormedSchema(Obj(Insert(s, name, arg))) <==> WellFormedSchema(Obj(s)) && Formed(name, arg)
  {
    var s' := Insert(s, name, arg);
    if arg.Some? {
      assert s'[|s|] == (name, arg.value);
      assert forall i | 0 <= i < |s| :: s'[i] == s[i];
    }
  }

  lemma CountForms(name: string, n: Option<nat>)
    requires name in ["minLength", "maxLength", "minItems", "maxItems"]
    ensures Formed(name, Count(n))
  {
  }

  lemma RealForms(name: string, n: Option<real>)
    requires name in ["minimum", "maximum"]
    ensures Formed(name, Real(n))
  {
  }

  lemma FormatForms(def: PropertyDef)
    ensures Formed("format", FormatArg(def))
  {
  }

  lemma LengthsForm(s: Fields, def: PropertyDef)
    ensures WellFormedSchema(Obj(Lengths(s, def))) <==> WellFormedSchema(Obj(s))
  {
    FormatForms(def);
    CountForms("minLength", def.minLength);
    CountForms("maxLength", def.maxLength);
    InsertForms(s, "format", FormatArg(def));
    var s := Insert(s, "format", FormatArg(def));
    InsertForms(s, "minLength", Count(def.minLength));
    InsertForms(Insert(s, "minLength", Count(def.minLength)), "maxLength", Count(def.maxLength));
  }

  lemma BoundsForm(s: Fields, def: PropertyDef)
    ensures WellFormedSchema(Obj(Bounds(s, def))) <==> WellFormedSchema(Obj(s))
  {
    RealForms("minimum", def.minimum);
    RealForms("maximum", def.maximum);
    CountForms("minItems", def.minItems);
    CountForms("maxItems", def.maxItems);
    InsertForms(s, "minimum", Real(def.minimum));
    var s := Insert(s, "minimum", Real(def.minimum));
    InsertForms(s, "maximum", Real(def.maximum));
    var s2 := Insert(s, "maximum", Real(def.maximum));
    InsertForms(s2, "minItems", Count(def.minItems));
    InsertForms(Insert(s2, "minItems", Count(def.minItems)), "maxItems", Count(def.maxItems));
  }

  lemma TypeForms(def: PropertyDef)
    ensures WellFormedKeyword("type", TypeArg(def)) <==> !(def.nullable && def.fieldType == NullType)
  {
    var arg := TypeArg(def);
    if def.nullable {
      assert arg.items[0] == Str(TypeName(def.fieldType)) && arg.items[1] == Str("null");
    }
  }

  lemma RequiredForms(def: PropertyDef)
    ensures Formed("required", RequiredArg(def)) <==> DistinctNames(def.required)
  {
    if def.required != [] {
      var arg := Strings(def.required);
      assert forall i | 0 <= i < |def.required| :: arg.items[i] == Str(def.required[i]);
    }
  }

  lemma ScalarsForm(def: PropertyDef)
    ensures WellFormedSchema(Obj(Scalars(def))) <==> !(def.nullable && def.fieldType == NullType)
  {
    var s := [("type", TypeArg(def))];
    TypeForms(def);
    assert WellFormedSchema(Obj(s)) <==> WellFormedKeyword(s[0].0, s[0].1);
    LengthsForm(s, def);
    BoundsForm(Lengths(s, def), def);
  }

  lemma DescriptionForms(def: PropertyDef)
    ensures Formed("description", DescriptionArg(def))
  {
  }

  lemma NestedForms(s: Fields, def: PropertyDef)
    ensures WellFormedSchema(Obj(Nested(s, def))) <==>
            && WellFormedSchema(Obj(s))
            && Formed("properties", PropertiesArg(def)) && Formed("required", RequiredArg(def))
            && Formed("items", ItemsArg(def))
  {
    InsertForms(s, "properties", PropertiesArg(def));
    var s2 := Insert(s, "properties", PropertiesArg(def));
    InsertForms(s2, "required", RequiredArg(def));
    var s3 := Insert(s2, "required", RequiredArg(def));
    InsertForms(s3, "items", ItemsArg(def));
  }

  lemma SchemaForms(def: PropertyDef)
    ensures WellFormedSchema(ToJsonSchema(def)) <==>
            && !(def.nullable && def.fieldType == NullType) && Formed("required", RequiredArg(def))
            && Formed("properties", PropertiesArg(def)) && Formed("items", ItemsArg(def))
  {
    ScalarsForm(def);
    NestedForms(Scalars(def), def);
    InsertForms(Nested(Scalars(def), def), "description", DescriptionArg(def));
    DescriptionForms(def);
  }

  ghost predicate AllWellFormed(defs: seq<Property>) {
    forall i | 0 <= i < |defs| :: WellFormedSchema(ToJsonSchema(defs[i].def))
  }

  lemma PropertiesForm(def: PropertyDef)
    ensures Formed("properties", PropertiesArg(def))
        <==> (def.properties.Declared? ==> AllWellFormed(def.properties.defs))
  {
  }

  lemma ItemsForm(def: PropertyDef)
    ensures Formed("items", ItemsArg(def)) <==> (def.items.Some? ==> WellFormedSchema(ToJsonSchema(def.items.value)))
  {
  }

  lemma {:induction false} CompiledIsWellFormed(def: PropertyDef)
    ensures WellFormedSchema(ToJsonSchema(def)) <==> Compilable(def)
    decreases def
  {
    SchemaForms(def);
    RequiredForms(def);
    PropertiesForm(def);
    ItemsForm(def);
    if def.properties.Declared? {
      var defs := def.properties.defs;
      forall i | 0 <= i < |defs|
        ensures WellFormedSchema(ToJsonSchema(defs[i].def)) <==> Compilable(defs[i].def)
      {
        CompiledIsWellFormed(defs[i].def);
      }
    }
    if def.items.Some? {
      CompiledIsWellFormed(def.items.value);
    }
  }

  /** validate_against_schema: a schema the validator rejects accepts everything. */
  ghost predicate PayloadIsValid(def: PropertyDef, payload: Json) {
    WellFormedSchema(ToJsonSchema(def)) ==> Accepts(ToJsonSchema(def), payload)
  }

  /** The verdict on a payload is the definition's own, unless the definition holds
      a nullable null or a repeated `required` name somewhere: then everything
      passes. */
  lemma VerdictIsExact(def: PropertyDef, payload: Json)
    ensures PayloadIsValid(def, payload) <==> (Compilable(def) ==> Meets(def, payload))
    ensures (PayloadIsValid(def, payload) <==> Meets(def, payload)) <==> (Compilable(def) || Meets(def, payload))
  {
    CompilationPreservesMeaning(def, payload);
    CompiledIsWellFormed(def);
  }
}
