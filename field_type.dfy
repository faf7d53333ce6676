/** The field-type classifier: which entry of the editor's widget catalogue a
    schema node belongs to. */
module FieldType {
  import opened Wrappers
  import opened Json

  /** The type the generator and the classifier dispatch on: for an array
      `type` its first entry other than "null", otherwise `type` itself. */
  function EffectiveType(schema: Json): (t: Json)
    ensures !Get(schema, "type").Arr? ==> t == Get(schema, "type")
    ensures Get(schema, "type").Arr? ==> t == FindNotNullString(Get(schema, "type").elems)
  {
    var ty := Get(schema, "type");
    if ty.Arr? then FindNotNullString(ty.elems) else ty
  }

  /** `determineFieldType(schema)`; reading a member of `undefined`/`null` throws. */
  function DetermineFieldType(schema: Json): (r: Result<Json, JsError>)
    ensures r.Failure? <==> schema.Undef? || schema.Null?
    ensures r.Ok? ==> r.value.Str? || r.value == EffectiveType(schema)
  {
    if schema.Undef? || schema.Null? then Failure(TypeError)
    else if Truthy(Get(schema, "anyOf")) then Ok(Str("anyOf"))
    else if Truthy(Get(schema, "allOf")) then Ok(Str("allOf"))
    else if Truthy(Get(schema, "oneOf")) then Ok(Str("oneOf"))
    else if Truthy(Get(schema, "enum")) then Ok(Str("enum"))
    else
      var t := EffectiveType(schema);
      if t == Str("integer") || t == Str("number") then Ok(Str("number"))
      else if t == Str("boolean") then Ok(Str("bool"))
      else if t == Str("string") then Ok(Str("string"))
      else Ok(Or(t, Str("unknown")))
  }

  /** The composition keywords and `enum` win over `type`, in the order anyOf, allOf, oneOf, enum. */
  lemma Precedence(schema: Json)
    requires !schema.Undef? && !schema.Null?
    ensures Truthy(Get(schema, "anyOf")) ==> DetermineFieldType(schema) == Ok(Str("anyOf"))
    ensures !Truthy(Get(schema, "anyOf")) && Truthy(Get(schema, "allOf")) ==>
              DetermineFieldType(schema) == Ok(Str("allOf"))
    ensures !Truthy(Get(schema, "anyOf")) && !Truthy(Get(schema, "allOf")) && Truthy(Get(schema, "oneOf")) ==>
              DetermineFieldType(schema) == Ok(Str("oneOf"))
    ensures (!Truthy(Get(schema, "anyOf")) && !Truthy(Get(schema, "allOf")) && !Truthy(Get(schema, "oneOf"))
             && Truthy(Get(schema, "enum"))) ==> DetermineFieldType(schema) == Ok(Str("enum"))
  {
  }

  predicate NoKeywords(schema: Json) {
    && !Truthy(Get(schema, "anyOf")) && !Truthy(Get(schema, "allOf"))
    && !Truthy(Get(schema, "oneOf")) && !Truthy(Get(schema, "enum"))
  }

  /** Without keywords the type decides: integer and number give "number",
      boolean gives "bool", string gives "string", any other truthy type is
      returned as it is and a falsy or absent one gives "unknown". */
  lemma ByType(schema: Json)
    requires !schema.Undef? && !schema.Null? && NoKeywords(schema)
    ensures var t := EffectiveType(schema);
      DetermineFieldType(schema) == Ok(
        if t in {Str("integer"), Str("number")} then Str("number")
        else if t == Str("boolean") then Str("bool")
        else if t == Str("string") then Str("string")
        else if Truthy(t) then t
        else Str("unknown"))
  {
  }

  /** For a list of types the first one that is not "null" decides,
      so a nullable field is classified by its real type. */
  lemma NullableType(schema: Json, t: string)
    requires t != "null"
    requires Get(schema, "type") == Arr([Str("null"), Str(t)]) || Get(schema, "type") == Arr([Str(t), Str("null")])
    ensures EffectiveType(schema) == Str(t)
  {
    var es := Get(schema, "type").elems;
    if es[0] == Str("null") {
      assert es[1..] == [Str(t)];
      assert FindNotNullString(es[1..]) == Str(t);
    }
  }
}
