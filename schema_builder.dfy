/** The page that ties the editor to the rendered form: importing a
    `{schema, "ui-schema"}` document (resolve the schema's definitions,
    generate a UI schema from it, canonicalise the imported UI schema and merge
    the generated one over it), exporting the pair, and the UI schema the form
    renders. Parsing the pasted or uploaded text is outside the model: its
    outcome is given as a parameter. */
module SchemaBuilder {
  import opened Wrappers
  import opened Strings
  import opened Json
  import Generator
  import GeneratorImpl
  import GeneratorShape
  import Canonical
  import Merge
  import ResolveSchema
  import Cleaner

  const MissingFields := "JSON must have top-level 'schema'" + " and 'ui-schema' fields."
  const MergeErrorPrefix := "Error merging UI schema: "
  const BlankPaste := "Please paste valid JSON or upload a file."
  const BadPaste := "Invalid JSON in the text area. "
  const BadFile := "Invalid JSON file."

  /** `data?.[k]`: `undefined` on `undefined` or `null`, the property otherwise. */
  function Member(data: Json, k: string): Json {
    if data.Undef? || data.Null? then Undef else Get(data, k)
  }

  /** The schema the generator runs on: `resolveSchema(schema)` when the schema has
      truthy `definitions`, the schema itself otherwise. */
  function Resolved(schema: Json, fuel: nat): Result<Json, JsError> {
    if Truthy(Member(schema, "definitions")) then ResolveSchema.ResolveSchema(schema, fuel) else Ok(schema)
  }

  /** `generateUISchema(resolvedSchema)`, with the default options. */
  function Generated(schema: Json, fuel: nat): Result<Json, JsError> {
    var resolved :- Resolved(schema, fuel);
    Generator.GenerateUISchema(resolved, Undef)
  }

  /** The try block: the new UI schema, or what it throws. */
  function MergedImport(schema: Json, ui: Json, fuel: nat): Result<Json, JsError> {
    var generated :- Generated(schema, fuel);
    Merge.Merged(Canonical.NormalizeSchema(ui), generated)
  }

  /** The two schemas an import stores. */
  datatype Imported = Imported(jsonSchema: Json, uiSchema: Json)

  /** `processImportedData(data)`: the schemas to store, or the error message to show. */
  function Import(data: Json, fuel: nat): Result<Imported, string> {
    var schema := Member(data, "schema");
    var ui := Member(data, "ui-schema");
    if !(Truthy(schema) && Truthy(ui)) then Failure(MissingFields)
    else
      match MergedImport(schema, ui, fuel)
      case Failure(e) => Failure(MergeErrorPrefix + ErrorText(e))
      case Ok(merged) => Ok(Imported(schema, merged))
  }

  /** The export payload `{ schema, "ui-schema" }`. */
  function ExportPayload(jsonSchema: Json, uiSchema: Json): Json {
    Obj([("schema", jsonSchema), ("ui-schema", uiSchema)])
  }

  /** `!pastedJSON.trim()`. */
  predicate Blank(text: string) {
    Trim(text) == ""
  }

  // ---------------------------------------------------------------- properties of an import

  /** The missing-fields message is shown exactly when `schema` or `ui-schema` is
      falsy; every other failure is a merge error. */
  lemma ImportErrors(data: Json, fuel: nat)
    ensures Import(data, fuel) == Failure(MissingFields) <==>
      !Truthy(Member(data, "schema")) || !Truthy(Member(data, "ui-schema"))
    ensures Import(data, fuel).Failure? && Import(data, fuel) != Failure(MissingFields) ==>
      StartsWith(Import(data, fuel).error, MergeErrorPrefix)
  {
    var schema := Member(data, "schema");
    var ui := Member(data, "ui-schema");
    if Truthy(schema) && Truthy(ui) {
      var m := MergedImport(schema, ui, fuel);
      if m.Failure? {
        MergeMessage(ErrorText(m.error));
        assert Import(data, fuel) == Failure(MergeErrorPrefix + ErrorText(m.error));
      }
    }
  }

  lemma MergeMessage(t: string)
    ensures MergeErrorPrefix + t != MissingFields && StartsWith(MergeErrorPrefix + t, MergeErrorPrefix)
  {
    assert (MergeErrorPrefix + t)[0] == 'E';
    assert MissingFields[0] == "JSON must have top-level 'schema'"[0] == 'J';
    assert (MergeErrorPrefix + t)[..|MergeErrorPrefix|] == MergeErrorPrefix;
  }

  /** The stored JSON schema is the imported one as given, not its resolved copy,
      and the import succeeds exactly when its try block does. */
  lemma ImportStoresOriginal(data: Json, fuel: nat)
    ensures Import(data, fuel).Ok? <==>
      Truthy(Member(data, "schema")) && Truthy(Member(data, "ui-schema")) &&
      MergedImport(Member(data, "schema"), Member(data, "ui-schema"), fuel).Ok?
    ensures Import(data, fuel).Ok? ==> Import(data, fuel).value.jsonSchema == Member(data, "schema")
  {
    var schema := Member(data, "schema");
    var ui := Member(data, "ui-schema");
    if Truthy(schema) && Truthy(ui) && MergedImport(schema, ui, fuel).Ok? {
      assert Import(data, fuel) == Ok(Imported(schema, MergedImport(schema, ui, fuel).value));
    }
  }

  /** `resolveSchema` runs only for a schema with truthy `definitions`: without
      them the generator sees the schema itself, whatever the fuel; with them
      (and no `$ref` at the top) it sees a schema without `definitions`. */
  lemma ResolvedOnlyWithDefinitions(schema: Json, fuel: nat, fuel': nat)
    ensures !Truthy(Member(schema, "definitions")) ==>
      Resolved(schema, fuel) == Ok(schema) && Generated(schema, fuel) == Generated(schema, fuel')
    ensures (schema.Obj? && DistinctKeys(schema.fields) && Truthy(Get(schema, "definitions")) &&
             !Truthy(Get(schema, "$ref")) && Resolved(schema, fuel).Ok?) ==>
      Resolved(schema, fuel).value.Obj? && "definitions" !in Keys(Resolved(schema, fuel).value)
  {
    if schema.Obj? && DistinctKeys(schema.fields) && Truthy(Get(schema, "definitions")) && !Truthy(Get(schema, "$ref")) {
      ResolveSchema.NoTopDefinitions(schema, fuel);
    }
  }

  /** The generated tree is merged over the imported one: the result has the keys
      of both; a key only the imported UI schema has keeps its canonical value;
      a key the generator wrote gets the generated array or scalar, or the merge
      of the two objects. */
  lemma GeneratedWins(data: Json, fuel: nat, k: string)
    requires Import(data, fuel).Ok? && Member(data, "ui-schema").Obj?
    ensures var n := Canonical.NormalizeSchema(Member(data, "ui-schema"));
      var g := Generated(Member(data, "schema"), fuel).value;
      var r := Import(data, fuel).value.uiSchema;
      n.Obj? && g.Obj? && r.Obj? &&
      (k in Keys(r) <==> k in Keys(n) || k in Keys(g)) &&
      (k !in Keys(g) ==> Get(r, k) == Get(n, k)) &&
      (k in Keys(g) ==> Get(r, k) == Merge.Combined(Get(n, k), Get(g, k)))
  {
    var schema := Member(data, "schema");
    var ui := Member(data, "ui-schema");
    var n := Canonical.NormalizeSchema(ui);
    var resolved := Resolved(schema, fuel).value;
    var opts := Generator.DefaultOptions(Undef);
    var fs := Generator.ProcessSchema(opts, resolved, true).value;
    assert Generated(schema, fuel) == Ok(Obj(fs));
    GeneratorShape.ProcessSchemaDistinct(opts, resolved, true);
    Merge.MergedObject(n.fields, fs, k);
    assert Import(data, fuel).value.uiSchema == Merge.Merged(n, Obj(fs)).value;
  }

  /** An imported UI schema with no `ui:options` object to dissolve is merged as it is. */
  lemma PlainUiSchema(data: Json, fuel: nat)
    requires WF(Member(data, "ui-schema")) && Canonical.NoObjectOptions(Member(data, "ui-schema"))
    ensures Truthy(Member(data, "schema")) && Truthy(Member(data, "ui-schema")) ==>
      Import(data, fuel) ==
        match Generated(Member(data, "schema"), fuel)
        case Failure(e) => Failure(MergeErrorPrefix + ErrorText(e))
        case Ok(g) =>
          match Merge.Merged(Member(data, "ui-schema"), g)
          case Failure(e) => Failure(MergeErrorPrefix + ErrorText(e))
          case Ok(r) => Ok(Imported(Member(data, "schema"), r))
  {
    Canonical.Unchanged(Member(data, "ui-schema"));
  }

  /** Exporting and importing again gives back the JSON schema as it was, and the
      payload carries the UI schema uncleaned. */
  lemma ExportRoundTrip(jsonSchema: Json, uiSchema: Json, fuel: nat)
    ensures var p := ExportPayload(jsonSchema, uiSchema);
      Keys(p) == ["schema", "ui-schema"] && Member(p, "schema") == jsonSchema && Member(p, "ui-schema") == uiSchema
    ensures Import(ExportPayload(jsonSchema, uiSchema), fuel).Ok? ==>
      Import(ExportPayload(jsonSchema, uiSchema), fuel).value.jsonSchema == jsonSchema
  {
    var p := ExportPayload(jsonSchema, uiSchema);
    assert |"schema"| != |"ui-schema"|;
    PayloadLookup(jsonSchema, uiSchema);
    ImportStoresOriginal(p, fuel);
  }

  lemma PayloadLookup(jsonSchema: Json, uiSchema: Json)
    ensures Keys(ExportPayload(jsonSchema, uiSchema)) == ["schema", "ui-schema"]
    ensures Get(ExportPayload(jsonSchema, uiSchema), "schema") == jsonSchema
    ensures Get(ExportPayload(jsonSchema, uiSchema), "ui-schema") == uiSchema
  {
    var fs := ExportPayload(jsonSchema, uiSchema).fields;
    assert |"schema"| != |"ui-schema"|;
    assert fs[1..] == [("ui-schema", uiSchema)];
    assert Lookup(fs[1..], "ui-schema") == uiSchema;
    assert KeysOf(fs[1..][1..]) == [];
    assert KeysOf(fs) == ["schema"] + KeysOf(fs[1..]);
  }

  /** A paste is rejected as blank exactly when it is all white space. */
  lemma BlankIsWhitespace(text: string)
    ensures Blank(text) <==> forall i :: 0 <= i < |text| ==> IsJsWhitespace(text[i])
  {
    TrimEmpty(text);
  }

  // ---------------------------------------------------------------- the page state

  /** The page's state: the JSON schema the form renders, the UI schema being
      edited, and the import dialog. */
  class Builder {
    var jsonSchema: Json
    var uiSchema: Json
    var importError: string
    var isModalOpen: bool
    var pastedJson: string

    /** The initial schemas are fixtures of the application and are given here. */
    constructor (initialJsonSchema: Json, initialUiSchema: Json)
      ensures jsonSchema == initialJsonSchema && uiSchema == initialUiSchema
      ensures importError == "" && !isModalOpen && pastedJson == ""
    {
      jsonSchema := initialJsonSchema;
      uiSchema := initialUiSchema;
      importError := "";
      isModalOpen := false;
      pastedJson := "";
    }

    /** `openImportModal`. */
    method OpenImportModal()
      modifies this
      ensures pastedJson == "" && importError == "" && isModalOpen
      ensures jsonSchema == old(jsonSchema) && uiSchema == old(uiSchema)
    {
      pastedJson := "";
      importError := "";
      isModalOpen := true;
    }

    /** `handlePasteChange`. */
    method PasteChange(text: string)
      modifies this
      ensures pastedJson == text
      ensures jsonSchema == old(jsonSchema) && uiSchema == old(uiSchema)
      ensures importError == old(importError) && isModalOpen == old(isModalOpen)
    {
      pastedJson := text;
    }

    /** `handleFilePickerClick`: the error is cleared before the file dialog opens. */
    method FilePickerClick()
      modifies this
      ensures importError == ""
      ensures jsonSchema == old(jsonSchema) && uiSchema == old(uiSchema)
      ensures pastedJson == old(pastedJson) && isModalOpen == old(isModalOpen)
    {
      importError := "";
    }

    /** `processImportedData`: on success both schemas are stored and the dialog
        closes; on any error only the message is set. */
    method ProcessImportedData(data: Json, fuel: nat)
      modifies this
      ensures pastedJson == old(pastedJson)
      ensures Import(data, fuel).Ok? ==>
        && jsonSchema == Import(data, fuel).value.jsonSchema
        && uiSchema == Import(data, fuel).value.uiSchema
        && !isModalOpen && importError == old(importError)
      ensures Import(data, fuel).Failure? ==>
        && importError == Import(data, fuel).error
        && jsonSchema == old(jsonSchema) && uiSchema == old(uiSchema) && isModalOpen == old(isModalOpen)
    {
      var schema := Member(data, "schema");
      var ui := Member(data, "ui-schema");
      if !(Truthy(schema) && Truthy(ui)) {
        importError := MissingFields;
        return;
      }
      var merged := Pipeline(schema, ui, fuel);
      if merged.Failure? {
        importError := MergeErrorPrefix + ErrorText(merged.error);
        return;
      }
      jsonSchema := schema;
      uiSchema := merged.value;
      isModalOpen := false;
    }

    /** `handleImportConfirm`, with `parsed` the outcome of `JSON.parse(pastedJSON)`. */
    method HandleImportConfirm(parsed: Result<Json, JsError>, fuel: nat)
      modifies this
      ensures pastedJson == old(pastedJson)
      ensures Blank(old(pastedJson)) ==>
        && importError == BlankPaste
        && jsonSchema == old(jsonSchema) && uiSchema == old(uiSchema) && isModalOpen == old(isModalOpen)
      ensures !Blank(old(pastedJson)) && parsed.Failure? ==>
        && importError == BadPaste + ErrorText(parsed.error)
        && jsonSchema == old(jsonSchema) && uiSchema == old(uiSchema) && isModalOpen == old(isModalOpen)
      ensures !Blank(old(pastedJson)) && parsed.Ok? ==> Imports(parsed.value, fuel)
    {
      if Blank(pastedJson) {
        importError := BlankPaste;
        return;
      }
      if parsed.Failure? {
        importError := BadPaste + ErrorText(parsed.error);
        return;
      }
      ProcessImportedData(parsed.value, fuel);
    }

    /** The `reader.onload` handler, with `parsed` the outcome of parsing the file. */
    method HandleFileLoaded(parsed: Result<Json, JsError>, fuel: nat)
      modifies this
      ensures pastedJson == old(pastedJson)
      ensures parsed.Failure? ==>
        && importError == BadFile + ErrorText(parsed.error)
        && jsonSchema == old(jsonSchema) && uiSchema == old(uiSchema) && isModalOpen == old(isModalOpen)
      ensures parsed.Ok? ==> Imports(parsed.value, fuel)
    {
      if parsed.Failure? {
        importError := BadFile + ErrorText(parsed.error);
        return;
      }
      ProcessImportedData(parsed.value, fuel);
    }

    /** The state `processImportedData(data)` leaves, from the state before it. */
    twostate predicate Imports(data: Json, fuel: nat)
      reads this
    {
      match Import(data, fuel)
      case Ok(im) =>
        jsonSchema == im.jsonSchema && uiSchema == im.uiSchema && !isModalOpen && importError == old(importError)
      case Failure(m) =>
        importError == m && jsonSchema == old(jsonSchema) && uiSchema == old(uiSchema) && isModalOpen == old(isModalOpen)
    }

    /** `handleExportClick`'s payload. */
    function ExportData(): (r: Json)
      reads this
      ensures Get(r, "schema") == jsonSchema && Get(r, "ui-schema") == uiSchema
    {
      PayloadLookup(jsonSchema, uiSchema);
      ExportPayload(jsonSchema, uiSchema)
    }

    /** `cleanUiSchema(schema)`, the UI schema the form renders: it has nothing
        left to clean. */
    function FormUiSchema(): (r: Json)
      reads this
      ensures Cleaner.IsClean(r) && Cleaner.Clean(r) == r
    {
      Cleaner.CleanIsClean(uiSchema);
      Cleaner.Idempotent(uiSchema);
      Cleaner.Clean(uiSchema)
    }
  }

  /** The try block run step by step: resolve, generate, normalise, merge. */
  method Pipeline(schema: Json, ui: Json, fuel: nat) returns (r: Result<Json, JsError>)
    ensures r == MergedImport(schema, ui, fuel)
  {
    var resolved := Ok(schema);
    if Truthy(Member(schema, "definitions")) {
      resolved := ResolveSchema.ResolveSchema(schema, fuel);
    }
    if resolved.Failure? {
      return Failure(resolved.error);
    }
    var generated := GeneratorImpl.GenerateUISchema(resolved.value, Undef);
    if generated.Failure? {
      return Failure(generated.error);
    }
    var normalized := Canonical.NormalizeSchema(ui);
    r := Merge.DeepMerge(normalized, generated.value);
  }
}
