/** Converting an MCP tool description into the function-calling format of
    the OpenAI API, normalising its input schema on the way: schema
    annotations and output schemas are dropped, arrays get an item type, and
    object properties are normalised recursively. */
module OpenAi {
  import opened Json

  const AnnotationsKey: string := "annotations"
  const OutputSchemaKey: string := "outputSchema"

  /** `{"type": "string"}`, the item schema given to arrays without one. */
  const DefaultItems: Json := JObj(map["type" := JStr("string")])

  /** The schema's `type` when it is a string. */
  predicate HasType(schema: map<string, Json>, t: string) {
    "type" in schema && schema["type"].JStr? && schema["type"].s == t
  }

  /** Every member except `annotations` and `outputSchema`. */
  function Filtered(schema: map<string, Json>): (r: map<string, Json>)
    ensures r.Keys == schema.Keys - {AnnotationsKey, OutputSchemaKey}
    ensures forall k :: k in r ==> r[k] == schema[k]
  {
    map k | k in schema && k != AnnotationsKey && k != OutputSchemaKey :: schema[k]
  }

  /** Whether the object case applies: type "object" with object-valued
      `properties`. */
  predicate HasObjectProperties(schema: map<string, Json>) {
    HasType(schema, "object") && "properties" in schema && schema["properties"].JObj?
  }

  /** The normalised schema. */
  function Normalized(schema: map<string, Json>): map<string, Json>
    decreases JObj(schema), 0
  {
    var base := Filtered(schema);
    if HasType(schema, "array") then
      if "items" in base then base else base["items" := DefaultItems]
    else if HasObjectProperties(schema) then
      base["properties" := JObj(NormalizedProperties(schema["properties"].fields))]
    else base
  }

  /** Each object-valued property normalised; other values as they are. */
  function NormalizedProperties(props: map<string, Json>): map<string, Json>
    decreases JObj(props), 2
  {
    map p | p in props :: NormalizedProperty(props[p])
  }

  function NormalizedProperty(v: Json): Json
    decreases v, 1
  {
    if v.JObj? then JObj(Normalized(v.fields)) else v
  }

  /** The caller's schema after the call: in the object case its own
      `properties` object is rewritten in place with the normalised
      children. */
  function RewrittenInput(schema: map<string, Json>): map<string, Json> {
    if !HasType(schema, "array") && HasObjectProperties(schema) then
      schema["properties" := JObj(NormalizedProperties(schema["properties"].fields))]
    else schema
  }

  /** `normalizeSchema`: a copy without the excluded members, then the
      defaulting or the normalisation of the properties, which are written
      back into the caller's `properties` object (returned as
      `schemaAfter`). */
  method NormalizeSchema(schema: map<string, Json>) returns (result: map<string, Json>, schemaAfter: map<string, Json>)
    ensures result == Normalized(schema)
    ensures schemaAfter == RewrittenInput(schema)
    decreases JObj(schema)
  {
    result := map[];
    var keys := schema.Keys;
    while keys != {}
      invariant keys <= schema.Keys
      invariant result == map k | k in schema.Keys - keys && k != AnnotationsKey && k != OutputSchemaKey :: schema[k]
      decreases keys
    {
      var k :| k in keys;
      if k != AnnotationsKey && k != OutputSchemaKey {
        result := result[k := schema[k]];
      }
      keys := keys - {k};
    }
    assert result == Filtered(schema);
    schemaAfter := schema;
    if "type" in schema && schema["type"].JStr? {
      if schema["type"].s == "array" {
        if "items" !in result {
          result := result["items" := DefaultItems];
        }
      } else if schema["type"].s == "object" {
        if "properties" in result && result["properties"].JObj? {
          var properties := result["properties"].fields;
          ghost var original := properties;
          assert JObj(original) == schema["properties"];
          var names := properties.Keys;
          while names != {}
            invariant names <= original.Keys
            invariant properties.Keys == original.Keys
            invariant forall p :: p in original ==>
              properties[p] == if p in names then original[p] else NormalizedProperty(original[p])
            decreases names
          {
            var p :| p in names;
            if properties[p].JObj? {
              assert properties[p] == original[p];
              var child, _ := NormalizeSchema(properties[p].fields);
              properties := properties[p := JObj(child)];
            }
            names := names - {p};
          }
          assert properties == NormalizedProperties(original);
          result := result["properties" := JObj(properties)];
          schemaAfter := schema["properties" := JObj(properties)];
        }
      }
    }
  }

  // ---------------------------------------------------------------------------
  // What normalisation does.

  /** `annotations` and `outputSchema` are always dropped; every other
      member of the input is kept, and only `items` can be added. Members
      other than `items` and `properties` keep their values. */
  lemma NormalizedKeys(schema: map<string, Json>)
    ensures AnnotationsKey !in Normalized(schema) && OutputSchemaKey !in Normalized(schema)
    ensures Normalized(schema).Keys - {"items"} == schema.Keys - {AnnotationsKey, OutputSchemaKey, "items"}
    ensures forall k :: k in Normalized(schema) && k != "items" && k != "properties" ==> Normalized(schema)[k] == schema[k]
  {
  }

  /** An array schema gets `{"type": "string"}` items when it has none; items
      it has are kept as they are, not normalised. */
  lemma ArrayItems(schema: map<string, Json>)
    requires HasType(schema, "array")
    ensures "items" in Normalized(schema)
    ensures Normalized(schema)["items"] == if "items" in schema then schema["items"] else DefaultItems
    ensures Normalized(schema) == Filtered(schema)["items" := Normalized(schema)["items"]]
  {
  }

  /** An object schema with object-valued `properties` gets each
      object-valued property normalised; other property values are kept. */
  lemma ObjectProperties(schema: map<string, Json>)
    requires HasObjectProperties(schema)
    ensures "properties" in Normalized(schema) && Normalized(schema)["properties"].JObj?
    ensures var before := schema["properties"].fields;
      var after := Normalized(schema)["properties"].fields;
      && after.Keys == before.Keys
      && forall p :: p in before ==>
           after[p] == if before[p].JObj? then JObj(Normalized(before[p].fields)) else before[p]
  {
    assert !HasType(schema, "array");
    var before := schema["properties"].fields;
    assert Normalized(schema)["properties"] == JObj(NormalizedProperties(before));
    forall p | p in before
      ensures NormalizedProperties(before)[p] == NormalizedProperty(before[p])
    {
    }
  }

  /** Any other schema (no type, a type that is not a string, another type,
      or an object without object-valued properties) becomes exactly its
      filtered copy. */
  lemma OtherSchemasFiltered(schema: map<string, Json>)
    requires !HasType(schema, "array") && !HasObjectProperties(schema)
    ensures Normalized(schema) == Filtered(schema)
  {
  }

  /** Normalising twice is normalising once. */
  lemma {:induction false} NormalizeIdempotent(schema: map<string, Json>)
    ensures Normalized(Normalized(schema)) == Normalized(schema)
    decreases JObj(schema), 0
  {
    var n := Normalized(schema);
    assert Filtered(n) == n;
    assert HasType(n, "array") == HasType(schema, "array");
    if HasObjectProperties(schema) && !HasType(schema, "array") {
      var props := schema["properties"].fields;
      NormalizedPropertiesIdempotent(props);
    }
  }

  lemma {:induction false} NormalizedPropertiesIdempotent(props: map<string, Json>)
    ensures NormalizedProperties(NormalizedProperties(props)) == NormalizedProperties(props)
    decreases JObj(props), 2
  {
    forall p | p in props
      ensures NormalizedProperty(NormalizedProperty(props[p])) == NormalizedProperty(props[p])
    {
      NormalizedPropertyIdempotent(props[p]);
    }
  }

  lemma {:induction false} NormalizedPropertyIdempotent(v: Json)
    ensures NormalizedProperty(NormalizedProperty(v)) == NormalizedProperty(v)
    decreases v, 1
  {
    if v.JObj? {
      NormalizeIdempotent(v.fields);
    }
  }

  /** The caller's schema is changed only under `properties`, and
      normalising it again gives the same result as before. */
  lemma RewrittenInputNormalizesAlike(schema: map<string, Json>)
    ensures forall k :: k != "properties" ==>
      (k in RewrittenInput(schema) <==> k in schema)
      && (k in schema ==> RewrittenInput(schema)[k] == schema[k])
    ensures Normalized(RewrittenInput(schema)) == Normalized(schema)
  {
    if !HasType(schema, "array") && HasObjectProperties(schema) {
      NormalizedPropertiesIdempotent(schema["properties"].fields);
    }
  }

  // ---------------------------------------------------------------------------
  // The vendor tool format.

  /** A member of a tool description, `null` when absent. */
  function Member(tool: map<string, Json>, key: string): Json {
    if key in tool then tool[key] else JNull
  }

  /** `mcpToVendor`: `{"type": "function", "function": {name, description,
      parameters}}`, with the name and description copied as they are and
      the input schema normalised. The input schema must be an object. */
  function McpToVendor(tool: map<string, Json>): (r: Json)
    requires "inputSchema" in tool && tool["inputSchema"].JObj?
    ensures r.JObj? && r.fields.Keys == {"type", "function"} && r.fields["type"] == JStr("function")
    ensures var f := r.fields["function"];
      && f.JObj? && f.fields.Keys == {"name", "description", "parameters"}
      && f.fields["name"] == Member(tool, "name")
      && f.fields["description"] == Member(tool, "description")
      && f.fields["parameters"] == JObj(Normalized(tool["inputSchema"].fields))
      && AnnotationsKey !in f.fields["parameters"].fields
      && OutputSchemaKey !in f.fields["parameters"].fields
      && Normalized(f.fields["parameters"].fields) == f.fields["parameters"].fields
  {
    var parameters := Normalized(tool["inputSchema"].fields);
    NormalizeIdempotent(tool["inputSchema"].fields);
    NormalizedKeys(tool["inputSchema"].fields);
    JObj(map[
      "type" := JStr("function"),
      "function" := JObj(map[
        "name" := Member(tool, "name"),
        "description" := Member(tool, "description"),
        "parameters" := JObj(parameters)])])
  }
}
