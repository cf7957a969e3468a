/** Normalising the input schema of an MCP tool (src/core/src/mcp/mod.rs:166-284).  Numbers, strings
    and nulls are left alone wherever a schema may stand. */
module McpSchema {
  import opened Basics
  import opened Transcript

  const STRING_SCHEMA: Json := JObject(map["type" := JString("string")])

  /** The keys whose values are schemas or lists of schemas. */
  const SUBSCHEMA_KEYS: set<string> := {"items", "oneOf", "anyOf", "allOf", "prefixItems"}

  const FIVE_TYPES: set<string> := {"object", "array", "string", "number", "boolean"}

  function AsStr(v: Json): Option<string> {
    if v.JString? then Some(v.s) else None
  }

  predicate IsKnownType(name: string) {
    name in FIVE_TYPES || name == "integer"
  }

  /** The first known type name in a list of types. */
  function FirstKnownType(types: seq<Json>): Option<string> {
    if types == [] then None
    else if types[0].JString? && IsKnownType(types[0].s) then Some(types[0].s)
    else FirstKnownType(types[1..])
  }

  function DeclaredType(fields: map<string, Json>): Option<string> {
    if "type" !in fields then None
    else match fields["type"]
      case JString(name) => Some(name)
      case JArray(types) => FirstKnownType(types)
      case _ => None
  }

  function InferJsonSchemaType(fields: map<string, Json>): Option<string> {
    if "properties" in fields || "required" in fields || "additionalProperties" in fields then Some("object")
    else if "items" in fields || "prefixItems" in fields then Some("array")
    else if "enum" in fields || "const" in fields || "format" in fields then Some("string")
    else if "minimum" in fields || "maximum" in fields || "exclusiveMinimum" in fields
            || "exclusiveMaximum" in fields || "multipleOf" in fields then Some("number")
    else None
  }

  function NormalizeJsonSchemaType(name: Option<string>): (r: string)
    ensures r in FIVE_TYPES
  {
    match name
    case None => "string"
    case Some(n) => if n in FIVE_TYPES then n else if n == "integer" then "number" else "string"
  }

  function TypeOf(fields: map<string, Json>): (r: string)
    ensures r in FIVE_TYPES
  {
    var declared := DeclaredType(fields);
    NormalizeJsonSchemaType(if declared.Some? then declared else InferJsonSchemaType(fields))
  }

  // ---------------------------------------------------------------------------
  // The meaning of sanitising

  function Sanitize(v: Json): Json
    decreases v, 0
  {
    match v
    case JBool(_) => STRING_SCHEMA
    case JArray(items) => JArray(seq(|items|, i requires 0 <= i < |items| => Sanitize(items[i])))
    case JObject(fields) =>
      var name := TypeOf(fields);
      JObject(WithDefaults(map k | k in fields :: SanitizeField(name, k, fields[k]), name))
    case _ => v
  }

  /** The new value of a field of a schema of this type. */
  function SanitizeField(name: string, key: string, v: Json): Json
    decreases v, 1
  {
    if key == "properties" then
      if v.JObject? then JObject(map k | k in v.fields :: Sanitize(v.fields[k])) else v
    else if key in SUBSCHEMA_KEYS then Sanitize(v)
    else if key == "additionalProperties" && name == "object" && !v.JBool? then Sanitize(v)
    else v
  }

  /** The type field, and the field a schema of this type must have. */
  function WithDefaults(fields: map<string, Json>, name: string): map<string, Json> {
    var typed := fields["type" := JString(name)];
    if name == "object" && "properties" !in typed then typed["properties" := JObject(map[])]
    else if name == "array" && "items" !in typed then typed["items" := STRING_SCHEMA]
    else typed
  }

  // ---------------------------------------------------------------------------
  // Sane schemas

  /** A value every schema in which has one of five types, properties if it is an object and items
      if it is an array. */
  predicate Sane(v: Json)
    decreases v, 0
  {
    match v
    case JBool(_) => false
    case JArray(items) => forall i :: 0 <= i < |items| ==> Sane(items[i])
    case JObject(fields) =>
      && "type" in fields && fields["type"].JString? && fields["type"].s in FIVE_TYPES
      && (fields["type"].s == "object" ==> "properties" in fields)
      && (fields["type"].s == "array" ==> "items" in fields)
      && forall k :: k in fields ==> SaneField(fields["type"].s, k, fields[k])
    case _ => true
  }

  predicate SaneField(name: string, key: string, v: Json)
    decreases v, 1
  {
    if key == "properties" then v.JObject? ==> forall k :: k in v.fields ==> Sane(v.fields[k])
    else if key == "items" || key == "prefixItems" || key == "oneOf" || key == "anyOf" || key == "allOf" then Sane(v)
    else if key == "additionalProperties" && name == "object" && !v.JBool? then Sane(v)
    else true
  }

  lemma StringSchemaIsSane()
    ensures Sane(STRING_SCHEMA) && Sane(JObject(map["type" := JString("string")]))
  {
    assert forall k :: k in STRING_SCHEMA.fields ==> k == "type";
  }

  /** Sanitising makes every value sane. */
  lemma {:induction false} SanitizedIsSane(v: Json)
    ensures Sane(Sanitize(v))
    decreases v, 0
  {
    match v
    case JBool(_) => StringSchemaIsSane();
    case JArray(items) =>
      forall i | 0 <= i < |items| ensures Sane(Sanitize(items[i])) {
        SanitizedIsSane(items[i]);
      }
    case JObject(fields) =>
      var name := TypeOf(fields);
      var out := Sanitize(v).fields;
      forall k | k in out ensures SaneField(name, k, out[k]) {
        if k in fields {
          SanitizedFieldIsSane(name, k, fields[k]);
        } else {
          StringSchemaIsSane();
        }
      }
    case _ =>
  }

  lemma {:induction false} SanitizedFieldIsSane(name: string, key: string, v: Json)
    ensures SaneField(name, key, SanitizeField(name, key, v))
    ensures SaneField(name, "type", JString(name))
    decreases v, 1
  {
    if key == "properties" && v.JObject? {
      forall k | k in v.fields ensures Sane(Sanitize(v.fields[k])) {
        SanitizedIsSane(v.fields[k]);
      }
    } else {
      SanitizedIsSane(v);
      if key == "additionalProperties" && !v.JBool? { NeverBool(v); }
    }
  }

  lemma NeverBool(v: Json)
    ensures !Sanitize(v).JBool?
  {
  }

  /** A sane value stays as it is. */
  lemma {:induction false} SaneIsFixed(v: Json)
    requires Sane(v)
    ensures Sanitize(v) == v
    decreases v, 0
  {
    match v
    case JArray(items) =>
      forall i | 0 <= i < |items| ensures Sanitize(items[i]) == items[i] {
        SaneIsFixed(items[i]);
      }
    case JObject(fields) =>
      var name := fields["type"].s;
      assert TypeOf(fields) == name;
      forall k | k in fields ensures SanitizeField(name, k, fields[k]) == fields[k] {
        SaneFieldIsFixed(name, k, fields[k]);
      }
      var same := map k | k in fields :: SanitizeField(name, k, fields[k]);
      assert same == fields;
      assert WithDefaults(fields, name) == fields;
    case _ =>
  }

  lemma {:induction false} SaneFieldIsFixed(name: string, key: string, v: Json)
    requires SaneField(name, key, v)
    ensures SanitizeField(name, key, v) == v
    decreases v, 1
  {
    if key == "properties" {
      if v.JObject? {
        forall k | k in v.fields ensures Sanitize(v.fields[k]) == v.fields[k] {
          SaneIsFixed(v.fields[k]);
        }
        var same := map k | k in v.fields :: Sanitize(v.fields[k]);
        assert same == v.fields;
      }
    } else if key in SUBSCHEMA_KEYS || (key == "additionalProperties" && name == "object" && !v.JBool?) {
      SaneIsFixed(v);
    }
  }

  /** The sane values are exactly those sanitising leaves alone, and one pass reaches them. */
  lemma SaneAreTheFixedPoints(v: Json)
    ensures Sanitize(Sanitize(v)) == Sanitize(v)
    ensures Sane(v) <==> Sanitize(v) == v
  {
    SanitizedIsSane(v);
    SaneIsFixed(Sanitize(v));
    if Sane(v) {
      SaneIsFixed(v);
    }
  }

  // ---------------------------------------------------------------------------
  // The type of a schema, read off its fields

  predicate NamesType(name: string) {
    || name == "object" || name == "array" || name == "string" || name == "number" || name == "integer"
    || name == "boolean"
  }

  /** The first known type in a list of types stands at `i`. */
  predicate FirstTypeAt(types: seq<Json>, i: nat) {
    i < |types| && types[i].JString? && NamesType(types[i].s)
    && forall j :: 0 <= j < i ==> !(types[j].JString? && NamesType(types[j].s))
  }

  /** A type that is declared: by name, or as the first known one of a list. */
  ghost predicate Declares(fields: map<string, Json>, name: string) {
    "type" in fields &&
    match fields["type"]
    case JString(declared) => name == declared
    case JArray(types) => exists i: nat :: FirstTypeAt(types, i) && types[i] == JString(name)
    case _ => false
  }

  /** The type of a schema that declares none, by the fields it has. */
  function ImpliedType(fields: map<string, Json>): string {
    if "properties" in fields || "required" in fields || "additionalProperties" in fields then "object"
    else if "items" in fields || "prefixItems" in fields then "array"
    else if "enum" in fields || "const" in fields || "format" in fields then "string"
    else if "minimum" in fields || "maximum" in fields || "exclusiveMinimum" in fields
            || "exclusiveMaximum" in fields || "multipleOf" in fields then "number"
    else "string"
  }

  lemma {:induction false} FirstKnownIff(types: seq<Json>, name: string)
    ensures FirstKnownType(types) == Some(name)
       <==> exists i: nat :: FirstTypeAt(types, i) && types[i] == JString(name)
  {
    if types != [] {
      var rest := types[1..];
      FirstKnownIff(rest, name);
      assert forall i :: 0 <= i < |rest| ==> rest[i] == types[i + 1];
      if types[0].JString? && NamesType(types[0].s) {
        assert FirstTypeAt(types, 0);
      } else {
        if i: nat :| FirstTypeAt(rest, i) && rest[i] == JString(name) {
          assert FirstTypeAt(types, i + 1);
        }
        if i: nat :| FirstTypeAt(types, i) && types[i] == JString(name) {
          assert FirstTypeAt(rest, i - 1);
        }
      }
    }
  }

  lemma DeclaredIff(fields: map<string, Json>, name: string)
    ensures DeclaredType(fields) == Some(name) <==> Declares(fields, name)
  {
    hide FirstKnownType, FirstTypeAt;
    if "type" in fields && fields["type"].JArray? {
      FirstKnownIff(fields["type"].items, name);
    }
  }

  lemma TypeIsRead(fields: map<string, Json>)
    ensures forall declared :: Declares(fields, declared) ==>
      TypeOf(fields) == if declared == "integer" then "number" else if NamesType(declared) then declared else "string"
    ensures (forall declared :: !Declares(fields, declared)) ==> TypeOf(fields) == ImpliedType(fields)
  {
    hide Declares, DeclaredType;
    forall declared ensures DeclaredType(fields) == Some(declared) <==> Declares(fields, declared) {
      DeclaredIff(fields, declared);
    }
  }

  lemma DefaultsAre(fields: map<string, Json>)
    ensures var out, name := Sanitize(JObject(fields)), TypeOf(fields);
            && out.JObject? && "type" in out.fields && out.fields["type"] == JString(name)
            && (name == "object" && "properties" !in fields ==>
                  "properties" in out.fields && out.fields["properties"] == JObject(map[]))
            && (name == "array" && "items" !in fields ==>
                  "items" in out.fields && out.fields["items"] == JObject(map["type" := JString("string")]))
  {
    hide TypeOf, SanitizeField;
  }

  /** The type of every sanitised schema: a declared one, with an integer counted as a number and
      an unknown one as a string, else the one its fields imply.  An object gets empty properties
      if it has none, an array items that are strings. */
  lemma SanitizedType(fields: map<string, Json>)
    ensures var out := Sanitize(JObject(fields));
            && out.JObject? && "type" in out.fields && out.fields["type"].JString?
            && var name := out.fields["type"].s;
               && (forall declared :: Declares(fields, declared) ==>
                     name == if declared == "integer" then "number"
                             else if NamesType(declared) then declared else "string")
               && ((forall declared :: !Declares(fields, declared)) ==> name == ImpliedType(fields))
               && (name == "object" && "properties" !in fields ==>
                     "properties" in out.fields && out.fields["properties"] == JObject(map[]))
               && (name == "array" && "items" !in fields ==>
                     "items" in out.fields && out.fields["items"] == JObject(map["type" := JString("string")]))
  {
    hide Declares, Sanitize, TypeOf, NamesType, ImpliedType;
    TypeIsRead(fields);
    DefaultsAre(fields);
  }

  const REWRITTEN_KEYS: set<string> := SUBSCHEMA_KEYS + {"type", "properties", "additionalProperties"}

  /** Sanitising a schema drops no field, and changes none but the type and the subschemas. */
  lemma OtherFieldsStay(fields: map<string, Json>, key: string)
    requires key in fields
    ensures var out := Sanitize(JObject(fields));
            && out.JObject? && key in out.fields
            && (key !in REWRITTEN_KEYS ==> out.fields[key] == fields[key])
            && (DeclaredType(fields).Some? && DeclaredType(fields).value in FIVE_TYPES
                ==> out.fields["type"] == JString(DeclaredType(fields).value))
  {
  }

  // ---------------------------------------------------------------------------
  // The rewriting pass

  /** The fields after these keys have been rewritten, in a schema of this type. */
  function Rewritten(fields: map<string, Json>, done: set<string>, name: string): map<string, Json> {
    map k | k in fields :: if k in done then SanitizeField(name, k, fields[k]) else fields[k]
  }

  lemma RewrittenOneMore(fields: map<string, Json>, done: set<string>, name: string, key: string)
    ensures Rewritten(fields, done + {key}, name)
         == if key in fields then Rewritten(fields, done, name)[key := SanitizeField(name, key, fields[key])]
            else Rewritten(fields, done, name)
  {
    hide SanitizeField;
    if key !in fields {
      assert forall k :: k in fields ==> (k in done + {key} <==> k in done);
    }
  }

  /** A field that stays as it is counts as rewritten. */
  lemma RewrittenSame(fields: map<string, Json>, done: set<string>, name: string, key: string)
    requires key in fields ==> SanitizeField(name, key, fields[key]) == fields[key]
    ensures Rewritten(fields, done + {key}, name) == Rewritten(fields, done, name)
  {
    hide SanitizeField;
  }

  const NESTED_KEYS: set<string> := {"properties"} + SUBSCHEMA_KEYS

  lemma NestedIgnoreType(fields: map<string, Json>, name: string)
    ensures Rewritten(fields, NESTED_KEYS, name) == Rewritten(fields, NESTED_KEYS, "")
  {
    forall k | k in fields && k in NESTED_KEYS
      ensures SanitizeField(name, k, fields[k]) == SanitizeField("", k, fields[k])
    {
    }
    assert Rewritten(fields, NESTED_KEYS, name) == Rewritten(fields, NESTED_KEYS, "") by {
      hide SanitizeField, NESTED_KEYS;
    }
  }

  lemma AllRewritten(fields: map<string, Json>, name: string)
    requires name == TypeOf(fields)
    ensures Sanitize(JObject(fields))
         == JObject(WithDefaults(Rewritten(fields, NESTED_KEYS + {"additionalProperties"}, name), name))
  {
    forall k | k in fields && k !in NESTED_KEYS + {"additionalProperties"}
      ensures SanitizeField(name, k, fields[k]) == fields[k]
    {
    }
    assert Rewritten(fields, NESTED_KEYS + {"additionalProperties"}, name)
        == map k | k in fields :: SanitizeField(name, k, fields[k]) by {
      hide SanitizeField, NESTED_KEYS;
    }
  }

  method SanitizeJsonSchema(value: Json) returns (out: Json)
    ensures out == Sanitize(value)
    decreases value, 2
  {
    hide Sanitize, Rewritten, TypeOf;
    match value {
      case JBool(_) =>
        PlainValues(value);
        out := STRING_SCHEMA;
      case JArray(items) =>
        var rewritten := SanitizeItems(items);
        ArrayOf(items, rewritten);
        out := JArray(rewritten);
      case JObject(fields) =>
        var m := RewriteSubschemas(fields);
        var name := NormalizeType(m);
        RewrittenType(fields);
        m := FinishSchema(fields, m, name);
        AllRewritten(fields, name);
        out := JObject(m);
      case _ =>
        PlainValues(value);
        out := value;
    }
  }

  lemma PlainValues(v: Json)
    ensures !v.JArray? && !v.JObject? ==> Sanitize(v) == if v.JBool? then STRING_SCHEMA else v
  {
  }

  lemma ArrayOf(items: seq<Json>, rewritten: seq<Json>)
    requires |rewritten| == |items| && forall k :: 0 <= k < |items| ==> rewritten[k] == Sanitize(items[k])
    ensures Sanitize(JArray(items)) == JArray(rewritten)
  {
  }

  method SanitizeItems(items: seq<Json>) returns (rewritten: seq<Json>)
    ensures |rewritten| == |items| && forall k :: 0 <= k < |items| ==> rewritten[k] == Sanitize(items[k])
    decreases JArray(items), 0
  {
    hide Sanitize;
    rewritten := [];
    for i := 0 to |items|
      invariant |rewritten| == i && forall k :: 0 <= k < i ==> rewritten[k] == Sanitize(items[k])
    {
      var item := SanitizeJsonSchema(items[i]);
      rewritten := rewritten + [item];
    }
  }

  /** The type and what a schema of that type must have; additional properties are a schema too. */
  method FinishSchema(fields: map<string, Json>, nested: map<string, Json>, name: string) returns (m: map<string, Json>)
    requires nested == Rewritten(fields, NESTED_KEYS, "")
    ensures m == WithDefaults(Rewritten(fields, NESTED_KEYS + {"additionalProperties"}, name), name)
    decreases JObject(fields), 1
  {
    hide Sanitize, SanitizeField, NESTED_KEYS, Rewritten;
    var extra := "additionalProperties";
    NestedIgnoreType(fields, name);
    NestedKeys(fields, name);
    m := nested["type" := JString(name)];
    if name == "object" {
      if "properties" !in m {
        m := m["properties" := JObject(map[])];
      }
      if extra in m && !m[extra].JBool? {
        RewrittenOneMore(fields, NESTED_KEYS, name, extra);
        AdditionalField(name, fields[extra]);
        var more := SanitizeJsonSchema(fields[extra]);
        DefaultsCommute(nested, name, extra, more);
        m := m[extra := more];
        return;
      }
    }
    if extra in fields {
      AdditionalField(name, fields[extra]);
    }
    RewrittenSame(fields, NESTED_KEYS, name, extra);
    if name == "array" {
      if "items" !in m {
        m := m["items" := STRING_SCHEMA];
      }
    }
  }

  lemma AdditionalField(name: string, v: Json)
    ensures SanitizeField(name, "additionalProperties", v) == if name == "object" && !v.JBool? then Sanitize(v) else v
  {
  }

  /** Rewriting keeps the keys, and the fields that are not nested. */
  lemma NestedKeys(fields: map<string, Json>, name: string)
    ensures forall k :: k in Rewritten(fields, NESTED_KEYS, name) <==> k in fields
    ensures "additionalProperties" in fields
            ==> Rewritten(fields, NESTED_KEYS, name)["additionalProperties"] == fields["additionalProperties"]
  {
    hide SanitizeField;
  }

  lemma DefaultsCommute(m: map<string, Json>, name: string, key: string, v: Json)
    requires key != "type" && key != "properties" && name == "object"
    ensures WithDefaults(m[key := v], name) == WithDefaults(m, name)[key := v]
  {
    assert m[key := v]["type" := JString(name)] == m["type" := JString(name)][key := v];
  }

  /** The rewriting of the subschemas of a schema, key by key. */
  method RewriteSubschemas(fields: map<string, Json>) returns (m: map<string, Json>)
    ensures m == Rewritten(fields, NESTED_KEYS, "")
    decreases JObject(fields), 1
  {
    hide SanitizeField, Sanitize, SUBSCHEMA_KEYS, NESTED_KEYS, Rewritten;
    NothingRewritten(fields);
    m := RewriteProperties(fields);
    ghost var done := {"properties"};
    NextIsNew(0);
    m := RewriteField(fields, m, done, "items");
    done := done + {"items"};
    var keys := ["oneOf", "anyOf", "allOf", "prefixItems"];
    ghost var start := done;
    assert keys[..0] == [] && start + (set k | k in keys[..0]) == start;
    for i := 0 to |keys|
      invariant done == start + (set k | k in keys[..i])
      invariant m == Rewritten(fields, done, "")
    {
      NextIsNew(i);
      m := RewriteField(fields, m, done, keys[i]);
      done := done + {keys[i]};
      assert keys[..i + 1] == keys[..i] + [keys[i]];
    }
    NestedAre(done);
  }

  lemma NextIsNew(i: nat)
    requires i < 4
    ensures var keys := ["oneOf", "anyOf", "allOf", "prefixItems"];
            keys[i] in SUBSCHEMA_KEYS && keys[i] !in {"properties"} + {"items"} + (set k | k in keys[..i])
    ensures "items" in SUBSCHEMA_KEYS && "items" !in {"properties"}
  {
  }

  lemma NestedAre(done: set<string>)
    requires done == {"properties"} + {"items"} + (set k | k in ["oneOf", "anyOf", "allOf", "prefixItems"][..4])
    ensures done == NESTED_KEYS
  {
    assert ["oneOf", "anyOf", "allOf", "prefixItems"][..4] == ["oneOf", "anyOf", "allOf", "prefixItems"];
  }

  lemma NothingRewritten(fields: map<string, Json>)
    ensures Rewritten(fields, {}, "") == fields
  {
    hide SanitizeField;
  }

  method RewriteProperties(fields: map<string, Json>) returns (m: map<string, Json>)
    ensures m == Rewritten(fields, {"properties"}, "")
    decreases JObject(fields), 0
  {
    hide SanitizeField, Sanitize, Rewritten;
    m := fields;
    NothingRewritten(fields);
    RewrittenOneMore(fields, {}, "", "properties");
    assert {} + {"properties"} == {"properties"};
    if "properties" in m {
      PropertiesField(fields["properties"]);
      if fields["properties"].JObject? {
        var rewritten := SanitizeValues(fields["properties"].fields);
        m := m["properties" := JObject(rewritten)];
      } else {
        RewrittenSame(fields, {}, "", "properties");
      }
    }
  }

  method RewriteField(fields: map<string, Json>, m: map<string, Json>, ghost done: set<string>, key: string)
    returns (after: map<string, Json>)
    requires m == Rewritten(fields, done, "") && key in SUBSCHEMA_KEYS && key !in done
    ensures after == Rewritten(fields, done + {key}, "")
    decreases JObject(fields), 0
  {
    hide SanitizeField, Sanitize;
    after := m;
    RewrittenOneMore(fields, done, "", key);
    if key in m {
      SubschemaField(key, fields[key]);
      var rewritten := SanitizeJsonSchema(m[key]);
      after := after[key := rewritten];
    }
  }

  method SanitizeValues(fields: map<string, Json>) returns (m: map<string, Json>)
    ensures m == map k | k in fields :: Sanitize(fields[k])
    decreases JObject(fields), 0
  {
    hide Sanitize;
    m := fields;
    var keys := fields.Keys;
    while keys != {}
      invariant keys <= fields.Keys && m.Keys == fields.Keys
      invariant forall k :: k in fields ==> m[k] == if k in keys then fields[k] else Sanitize(fields[k])
      decreases |keys|
    {
      var k :| k in keys;
      var rewritten := SanitizeJsonSchema(fields[k]);
      m := m[k := rewritten];
      keys := keys - {k};
    }
  }

  lemma PropertiesField(v: Json)
    ensures SanitizeField("", "properties", v)
         == if v.JObject? then JObject(map k | k in v.fields :: Sanitize(v.fields[k])) else v
  {
  }

  lemma SubschemaField(key: string, v: Json)
    requires key in SUBSCHEMA_KEYS
    ensures SanitizeField("", key, v) == Sanitize(v)
  {
  }

  /** Rewriting subschemas changes neither the type field nor what is inferred from the keys. */
  lemma RewrittenType(fields: map<string, Json>)
    ensures TypeOf(Rewritten(fields, NESTED_KEYS, "")) == TypeOf(fields)
  {
    hide SanitizeField;
    var m := Rewritten(fields, NESTED_KEYS, "");
    assert forall k :: k in m <==> k in fields;
    assert "type" in fields ==> m["type"] == fields["type"];
  }

  method NormalizeType(fields: map<string, Json>) returns (name: string)
    ensures name == TypeOf(fields)
  {
    var declared: Option<string> := None;
    if "type" in fields {
      declared := AsStr(fields["type"]);
      if declared.None? && fields["type"].JArray? {
        declared := FindKnownType(fields["type"].items);
      }
    }
    if declared.None? {
      declared := InferJsonSchemaType(fields);
    }
    name := NormalizeJsonSchemaType(declared);
  }

  method FindKnownType(types: seq<Json>) returns (found: Option<string>)
    ensures found == FirstKnownType(types)
  {
    for i := 0 to |types|
      invariant FirstKnownType(types) == FirstKnownType(types[i..])
    {
      if types[i].JString? && IsKnownType(types[i].s) {
        return Some(types[i].s);
      }
      assert types[i..][1..] == types[i + 1..];
    }
    found := None;
  }
}
