/** What the keywords of a tool's parameter schema mean: `schemaMatches` of internal/basispoints/protocol.go,
    keyword by keyword. */
module Schemas {
  import opened Responses
  import opened Space
  import opened Relay

  /** A schema that names one type and nothing else. */
  function TypeOnly(name: string): Object {
    map["type" := Str(name)]
  }

  lemma TypeNamesAreTrimmed()
    ensures forall name | name in {"object", "array", "string", "integer", "number", "boolean", "null"} :: TrimSpace(name) == name
  {
    hide TrimSpace;
    PlainStays("object");
    PlainStays("array");
    PlainStays("string");
    PlainStays("integer");
    PlainStays("number");
    PlainStays("boolean");
    PlainStays("null");
  }

  /** A schema with a single type is the conjunction of its keywords. */
  lemma Keywords(codec: Codec, value: Json, schema: Object, name: string)
    requires Get(schema, "type") == Some(Str(name))
    ensures SchemaMatches(codec, value, schema) <==>
              && HasType(value, TrimSpace(name))
              && (TrimSpace(name) == "object" ==> value.Obj? && MatchesObject(codec, value.members, schema))
              && (TrimSpace(name) == "array" && Members(Get(schema, "items")).Some? ==>
                    value.Arr? && forall k | 0 <= k < |value.items| :: SchemaMatches(codec, value.items[k], schema["items"].members))
              && InEnum(codec, value, Get(schema, "enum"))
  {
    hide TrimSpace, MatchesObject, InEnum;
    assert "type" in schema;
  }

  /** Each of the seven type names admits exactly the values of its kind; whole numbers are not told from
      others. */
  lemma TypesAdmit(codec: Codec, value: Json)
    ensures SchemaMatches(codec, value, TypeOnly("object")) <==> value.Obj?
    ensures SchemaMatches(codec, value, TypeOnly("array")) <==> value.Arr?
    ensures SchemaMatches(codec, value, TypeOnly("string")) <==> value.Str?
    ensures SchemaMatches(codec, value, TypeOnly("integer")) <==> value.Number?
    ensures SchemaMatches(codec, value, TypeOnly("number")) <==> value.Number?
    ensures SchemaMatches(codec, value, TypeOnly("boolean")) <==> value.Bool?
    ensures SchemaMatches(codec, value, TypeOnly("null")) <==> value.Null?
  {
    hide SchemaMatches, TrimSpace;
    TypeNamesAreTrimmed();
    NothingElse(codec, value, "object");
    NothingElse(codec, value, "array");
    NothingElse(codec, value, "string");
    NothingElse(codec, value, "integer");
    NothingElse(codec, value, "number");
    NothingElse(codec, value, "boolean");
    NothingElse(codec, value, "null");
  }

  lemma NothingElse(codec: Codec, value: Json, name: string)
    ensures SchemaMatches(codec, value, TypeOnly(name)) <==> HasType(value, TrimSpace(name))
  {
    hide SchemaMatches, TrimSpace;
    Keywords(codec, value, TypeOnly(name), name);
    HasObjects(value);
  }

  lemma HasObjects(value: Json)
    ensures HasType(value, "object") ==> value.Obj?
    ensures HasType(value, "array") ==> value.Arr?
  {
  }

  /** An empty schema, and one whose type is unknown or missing, admit every type. */
  lemma UnknownTypesAdmitAll(codec: Codec, value: Json, name: string)
    requires TrimSpace(name) !in {"object", "array", "string", "integer", "number", "boolean", "null"}
    ensures SchemaMatches(codec, value, map[]) && SchemaMatches(codec, value, TypeOnly(name))
  {
    hide TrimSpace;
    Keywords(codec, value, TypeOnly(name), name);
  }

  /** A schema without a type is its enumeration alone. */
  lemma OnlyEnumWithoutType(codec: Codec, value: Json, schema: Object)
    requires "type" !in schema && schema != map[]
    ensures SchemaMatches(codec, value, schema) <==> Listed(codec, value, schema)
  {
    assert TrimSpace("") == "";
    hide TrimSpace;
  }

  /** The schema lists no values, or lists one that prints like this value. */
  predicate Listed(codec: Codec, value: Json, schema: Object) {
    "enum" in schema && schema["enum"].Arr? && schema["enum"].items != [] ==>
      exists option | option in schema["enum"].items :: codec.show(option) == codec.show(value)
  }

  lemma ListedIsInEnum(codec: Codec, value: Json, schema: Object)
    ensures InEnum(codec, value, Get(schema, "enum")) <==> Listed(codec, value, schema)
  {
  }

  /** A non-empty enumeration admits exactly the values that print like one of its elements, whatever else
      the schema says. */
  lemma EnumAdmitsTheListed(codec: Codec, value: Json, schema: Object, name: string)
    requires Get(schema, "type") == Some(Str(name))
    ensures SchemaMatches(codec, value, schema) <==> Listed(codec, value, schema) && SchemaMatches(codec, value, schema - {"enum"})
  {
    hide SchemaMatches, MatchesObject, TrimSpace, HasType, InEnum, Listed;
    var rest := schema - {"enum"};
    Keywords(codec, value, schema, name);
    Keywords(codec, value, rest, name);
    ListedIsInEnum(codec, value, schema);
    ListedIsInEnum(codec, value, rest);
    assert Listed(codec, value, rest) by {
      NothingListed(codec, value, rest);
    }
    assert Get(rest, "items") == Get(schema, "items");
    HasObjects(value);
    if value.Obj? {
      SameObject(codec, value.members, schema, rest);
    }
  }

  lemma NothingListed(codec: Codec, value: Json, schema: Object)
    requires "enum" !in schema
    ensures Listed(codec, value, schema)
  {
  }

  lemma SameObject(codec: Codec, members: Object, a: Object, b: Object)
    requires Get(a, "required") == Get(b, "required") && Get(a, "properties") == Get(b, "properties")
    requires Get(a, "additionalProperties") == Get(b, "additionalProperties")
    ensures MatchesObject(codec, members, a) == MatchesObject(codec, members, b)
  {
    hide SchemaMatches;
  }

  // ---------- objects and arrays ----------

  /** Every name that the schema requires is a member. */
  predicate HasRequired(members: Object, schema: Object) {
    "required" in schema && schema["required"].Arr? ==>
      forall name | name in schema["required"].items :: TrimSpace(name.Text()) in members
  }

  /** The schema of a declared property. */
  predicate Declares(schema: Object, name: string) {
    && "properties" in schema && schema["properties"].Obj?
    && name in schema["properties"].members && schema["properties"].members[name].Obj?
  }

  /** Undeclared members are allowed, unless there are declarations and nothing beside them is. */
  predicate Open(schema: Object) {
    || "properties" !in schema || !schema["properties"].Obj?
    || "additionalProperties" !in schema || schema["additionalProperties"] != Bool(false)
  }

  /** An object fits if and only if every required member is there, every declared member fits its own schema,
      and there are no others where the schema is closed. */
  lemma ObjectFits(codec: Codec, value: Json, schema: Object)
    requires "enum" !in schema && Get(schema, "type") == Some(Str("object"))
    ensures SchemaMatches(codec, value, schema) <==>
              && value.Obj? && HasRequired(value.members, schema)
              && (forall name | name in value.members && Declares(schema, name) ::
                    SchemaMatches(codec, value.members[name], schema["properties"].members[name].members))
              && (Open(schema) || forall name | name in value.members :: Declares(schema, name))
  {
    hide SchemaMatches, TrimSpace;
    TypeNamesAreTrimmed();
    Keywords(codec, value, schema, "object");
    ListedIsInEnum(codec, value, schema);
    if value.Obj? {
      MembersFit(codec, value.members, schema);
    }
  }

  lemma MembersFit(codec: Codec, members: Object, schema: Object)
    ensures MatchesObject(codec, members, schema) <==>
              && HasRequired(members, schema)
              && (forall name | name in members && Declares(schema, name) ::
                    SchemaMatches(codec, members[name], schema["properties"].members[name].members))
              && (Open(schema) || forall name | name in members :: Declares(schema, name))
  {
    hide SchemaMatches, TrimSpace;
  }

  /** An array fits if and only if all its elements fit the schema of the elements, where there is one. */
  lemma ArrayFits(codec: Codec, value: Json, schema: Object)
    requires "enum" !in schema && Get(schema, "type") == Some(Str("array"))
    ensures SchemaMatches(codec, value, schema) <==>
              && value.Arr?
              && ("items" in schema && schema["items"].Obj? ==>
                    forall element | element in value.items :: SchemaMatches(codec, element, schema["items"].members))
  {
    hide SchemaMatches, TrimSpace;
    TypeNamesAreTrimmed();
    Keywords(codec, value, schema, "array");
    ListedIsInEnum(codec, value, schema);
  }
}
