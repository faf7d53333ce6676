/** `generateUISchema`: the UI schema derived from a JSON Schema, one UI node
    per schema node. Each function here is the value one step of the builder
    leaves in the node under construction (`Ui`, the node's entries), or the
    exception the step throws. */
module Generator {
  import opened Wrappers
  import opened Strings
  import opened Json
  import opened FieldType

  type Ui = Fields

  /** The defaults every call starts from, before the caller's options are spread over them. */
  const BaseOptions: Fields := [
    ("useUiOptionsWrapper", Bool(true)),
    ("defaultWidgets", Obj([("string", Str("text")), ("number", Str("updown")), ("boolean", Str("checkbox"))])),
    ("globalOptions", Obj([]))
  ]

  /** `{ ...defaults, ...options }`, with `options` defaulting to `{}`. */
  function DefaultOptions(options: Json): (opts: Json)
    ensures opts.Obj?
    ensures forall k :: k !in Keys(options) ==> Get(opts, k) == Lookup(BaseOptions, k)
  {
    var given := if options.Undef? then Obj([]) else options;
    Obj(PutAll(BaseOptions, Entries(given)))
  }

  /** Whether extras go into a `ui:options` bag (wrapped) or onto `ui:<key>` (flattened). */
  predicate Wrapped(opts: Json) {
    Truthy(Get(opts, "useUiOptionsWrapper"))
  }

  /** The entries of the node's current `ui:options` bag, `{}` when it has none. */
  function OptionsBag(ui: Ui): Fields {
    Entries(Or(Lookup(ui, "ui:options"), Obj([])))
  }

  /** The key `addToUIOptions` writes in the node itself. */
  function OptionSlot(opts: Json, key: string): string {
    if Wrapped(opts) then "ui:options" else "ui:" + key
  }

  /** `addToUIOptions(uiSchema, key, value)`: a fresh bag with `key` set, or a flattened `ui:<key>`. */
  function AddToUIOptions(opts: Json, ui: Ui, key: string, value: Json): Ui {
    if Wrapped(opts) then Put(ui, "ui:options", Obj(Put(OptionsBag(ui), key, value)))
    else Put(ui, "ui:" + key, value)
  }

  /** Wrapped, the option goes into a copy of the bag that keeps the other
      options; flattened, it goes onto `ui:<key>`. No other key of the node changes. */
  lemma AddToUIOptionsLookup(opts: Json, ui: Ui, key: string, value: Json)
    ensures var r := AddToUIOptions(opts, ui, key, value);
      && (Wrapped(opts) ==> Lookup(r, "ui:options") == Obj(Put(OptionsBag(ui), key, value)))
      && (!Wrapped(opts) ==> Lookup(r, "ui:" + key) == value)
      && forall k :: k != OptionSlot(opts, key) ==> Lookup(r, k) == Lookup(ui, k)
  {
  }

  /** The value an option has after `addToUIOptions(ui, key, value)`, wherever it is kept. */
  function OptionValue(opts: Json, ui: Ui, key: string): Json {
    if Wrapped(opts) then Lookup(Entries(Lookup(ui, "ui:options")), key) else Lookup(ui, "ui:" + key)
  }

  // ---------------------------------------------------------------- widget defaults

  /** The keys a widget comes with and their default values. */
  function WidgetDefaults(widget: Json): Fields {
    if widget == Str("textarea") then [("ui:rows", Num(5)), ("ui:autocomplete", Str("off"))]
    else if widget == Str("file") then [("ui:filePreview", Bool(false)), ("ui:accept", Str(""))]
    else if widget == Str("text") then [("ui:inputType", Str(""))]
    else []
  }

  function FillIfUndefined(ui: Ui, k: string, v: Json): Ui {
    if Lookup(ui, k) == Undef then Put(ui, k, v) else ui
  }

  /** `applyWidgetDefaults(uiSchema, widget)`: a key the node already has keeps
      its value, a missing one takes the widget's default, if it has one. */
  function ApplyWidgetDefaults(ui: Ui, widget: Json): Ui {
    match widget
    case Str("textarea") => FillIfUndefined(FillIfUndefined(ui, "ui:rows", Num(5)), "ui:autocomplete", Str("off"))
    case Str("file") => FillIfUndefined(FillIfUndefined(ui, "ui:filePreview", Bool(false)), "ui:accept", Str(""))
    case Str("text") => FillIfUndefined(ui, "ui:inputType", Str(""))
    case _ => ui
  }

  lemma FillLookup(ui: Ui, k: string, v: Json, k': string)
    ensures Lookup(FillIfUndefined(ui, k, v), k') == if k' == k && Lookup(ui, k) == Undef then v else Lookup(ui, k')
  {
  }

  lemma LookupTwo(a: (string, Json), b: (string, Json), k: string)
    ensures Lookup([a, b], k) == if k == a.0 then a.1 else if k == b.0 then b.1 else Undef
  {
    assert [a, b][1..] == [b];
  }

  /** A key the node has keeps its value; a missing one takes the widget's default. */
  lemma WidgetDefaultsLookup(ui: Ui, widget: Json, k: string)
    ensures Lookup(ApplyWidgetDefaults(ui, widget), k) ==
      if Lookup(ui, k) != Undef then Lookup(ui, k) else Lookup(WidgetDefaults(widget), k)
  {
    var ds := WidgetDefaults(widget);
    if widget == Str("textarea") {
      LookupTwo(ds[0], ds[1], k);
      FillLookup(ui, "ui:rows", Num(5), k);
      FillLookup(FillIfUndefined(ui, "ui:rows", Num(5)), "ui:autocomplete", Str("off"), k);
    } else if widget == Str("file") {
      LookupTwo(ds[0], ds[1], k);
      FillLookup(ui, "ui:filePreview", Bool(false), k);
      FillLookup(FillIfUndefined(ui, "ui:filePreview", Bool(false)), "ui:accept", Str(""), k);
    } else if widget == Str("text") {
      FillLookup(ui, "ui:inputType", Str(""), k);
    }
  }

  // ---------------------------------------------------------------- per-type handlers

  /** The default widget table `defaultWidgets[name]`; the table itself being `undefined` or `null` throws. */
  function DefaultWidget(opts: Json, name: string): (r: Result<Json, JsError>)
    ensures r.Ok? <==> WidgetsReadable(opts)
  {
    Read(Get(opts, "defaultWidgets"), name)
  }

  /** The default widget table can be read from. */
  predicate WidgetsReadable(opts: Json) {
    var dw := Get(opts, "defaultWidgets");
    !dw.Undef? && !dw.Null?
  }

  /** The widget a string field starts with: the one registered for its format, else the string default. */
  function StringWidget(opts: Json, schema: Json): (r: Result<Json, JsError>)
    ensures r.Ok? <==> WidgetsReadable(opts)
  {
    var format := Get(schema, "format");
    if Truthy(format) then
      var byFormat :- DefaultWidget(opts, ToPropertyKey(format));
      if Truthy(byFormat) then Ok(byFormat) else DefaultWidget(opts, "string")
    else DefaultWidget(opts, "string")
  }

  /** `schema.title?.toLowerCase() || 'value'`; a title that is not a string throws. */
  function PlaceholderSubject(schema: Json): (r: Result<string, JsError>)
    ensures r.Ok? <==> Get(schema, "title").Undef? || Get(schema, "title").Null? || Get(schema, "title").Str?
  {
    var title := Get(schema, "title");
    if title.Undef? || title.Null? then Ok("value")
    else if title.Str? then Ok(if ToLower(title.s) == "" then "value" else ToLower(title.s))
    else Failure(TypeError)
  }

  /** `handleStringType`. */
  function HandleString(opts: Json, schema: Json, ui: Ui): Result<Ui, JsError> {
    var widget :- StringWidget(opts, schema);
    var ui1 := Put(ui, "ui:widget", widget);
    var ui2 := if Get(schema, "format") == Str("data-url")
               then ApplyWidgetDefaults(Put(ui1, "ui:widget", Str("file")), Str("file"))
               else ui1;
    var ui3 := ApplyWidgetDefaults(ui2, Lookup(ui2, "ui:widget"));
    var ui4 := if widget == Str("textarea") then TextareaOptions(opts, schema, ui3) else ui3;
    var inputType := Get(schema, "inputType");
    var ui5 := if Truthy(inputType) then AddToUIOptions(opts, ui4, "inputType", inputType) else ui4;
    var subject :- PlaceholderSubject(schema);
    var ui6 := AddToUIOptions(opts, ui5, "placeholder", Str("Enter " + subject));
    Ok(Put(ui6, "ui:autofocus", Or(Get(schema, "autofocus"), Bool(false))))
  }

  /** `Math.min(Math.max(m, 3), 10)`: `Math.max` converts `m` with ToNumber,
      and a NaN passes through both calls; the model writes NaN as `null`, which
      is what JSON makes of it. */
  function ClampRows(m: Json): (r: Json)
    ensures r.Null? <==> ToNumber(m).None?
    ensures r.Num? ==> 3 <= r.n <= 10
    ensures ToNumber(m).Some? && 3 <= ToNumber(m).value <= 10 ==> r == Num(ToNumber(m).value)
    ensures ToNumber(m).Some? && ToNumber(m).value < 3 ==> r == Num(3)
    ensures ToNumber(m).Some? && ToNumber(m).value > 10 ==> r == Num(10)
  {
    match ToNumber(m)
    case Some(n) => Num(if n < 3 then 3 else if n > 10 then 10 else n)
    case None => Null
  }

  /** Numeric text and arrays are converted, not rejected: `"7"` gives 7 rows,
      blank text and `[]` give 3 (they convert to 0), `[12]` gives 10, and a
      non-numeral such as `"wide"` gives NaN. */
  lemma ClampRowsConverts()
    ensures ClampRows(Str("7")) == Num(7)
    ensures ClampRows(Str(" ")) == Num(3)
    ensures ClampRows(Arr([])) == Num(3)
    ensures ClampRows(Arr([Num(12)])) == Num(10)
    ensures ClampRows(Str("wide")).Null?
  {
    assert IntToString(7) == "7";
    StringToNumberOfInt(7);
    assert Trim(" ") == "";
    assert Trim("wide") == "wide" by { TrimNoWhitespace("wide"); }
    assert !IsDigitRun("wide") by { assert !IsDigit("wide"[0]); }
  }

  /** The rows a textarea gets: `schema.rows || 5`, or the clamped `minLength || 3` when a length bound is set. */
  function TextareaRows(schema: Json): (r: Json)
    ensures Truthy(Get(schema, "minLength")) || Truthy(Get(schema, "maxLength")) ==> r.Null? || (r.Num? && 3 <= r.n <= 10)
    ensures !Truthy(Get(schema, "minLength")) && Truthy(Get(schema, "maxLength")) ==> r == Num(3)
    ensures !Truthy(Get(schema, "minLength")) && !Truthy(Get(schema, "maxLength")) && !Truthy(Get(schema, "rows")) ==> r == Num(5)
  {
    if Truthy(Get(schema, "minLength")) || Truthy(Get(schema, "maxLength"))
    then ClampRows(Or(Get(schema, "minLength"), Num(3)))
    else Or(Get(schema, "rows"), Num(5))
  }

  /** `handleTextareaOptions`: widget, autocomplete and rows, added in that order. */
  function TextareaOptions(opts: Json, schema: Json, ui: Ui): Ui {
    var ui1 := AddToUIOptions(opts, ui, "widget", Str("textarea"));
    var ui2 := AddToUIOptions(opts, ui1, "autocomplete", Str("on"));
    AddToUIOptions(opts, ui2, "rows", TextareaRows(schema))
  }

  /** `handleNumberType`. */
  function HandleNumber(opts: Json, ui: Ui): Result<Ui, JsError> {
    var widget :- DefaultWidget(opts, "number");
    Ok(ApplyWidgetDefaults(Put(ui, "ui:widget", widget), widget))
  }

  /** `handleBooleanType`. */
  function HandleBoolean(opts: Json, ui: Ui): Result<Ui, JsError> {
    var widget :- DefaultWidget(opts, "boolean");
    Ok(Put(ui, "ui:widget", widget))
  }

  const ArrayOptions: Json := Obj([("addable", Bool(true)), ("orderable", Bool(true)), ("removable", Bool(true))])

  /** `handleArrayType`: the array options, the items node, then the file-preview option. */
  function HandleArray(opts: Json, schema: Json, ui: Ui): Result<Ui, JsError>
    decreases Size(schema), 1
  {
    var ui1 := AddToUIOptions(opts, ui, "arrayOptions", ArrayOptions);
    var ui2 :- ArrayItems(opts, schema, ui1);
    Ok(if Truthy(Get(schema, "filePreview")) then AddToUIOptions(opts, ui2, "filePreview", Bool(true)) else ui2)
  }

  /** The items node of an array, merged in (`Object.assign`) when the items
      are an enum and nested under `items` otherwise. */
  function ArrayItems(opts: Json, schema: Json, ui: Ui): Result<Ui, JsError>
    decreases Size(schema), 0
  {
    var items := Get(schema, "items");
    if Truthy(items) then
      ItemsSmaller(schema);
      var itemsUi :- ProcessSchema(opts, items, false);
      if Truthy(Get(items, "enum")) then Ok(PutAll(ui, itemsUi)) else Ok(Put(ui, "items", Obj(itemsUi)))
    else Ok(ui)
  }

  /** `handleObjectType`: the property order and one child per property, then
      the duplicate-key separator when additional properties are allowed. */
  function HandleObject(opts: Json, schema: Json, ui: Ui): Result<Ui, JsError>
    decreases Size(schema), 1
  {
    var ui1 :- ObjectProperties(opts, schema, ui);
    Ok(if Truthy(Get(schema, "additionalProperties"))
       then AddToUIOptions(opts, ui1, "duplicateKeySuffixSeparator",
                           Or(Get(schema, "duplicateKeySuffixSeparator"), Str("-")))
       else ui1)
  }

  /** `ui:order` from the property keys, then the children, when the schema has properties. */
  function ObjectProperties(opts: Json, schema: Json, ui: Ui): Result<Ui, JsError>
    decreases Size(schema), 0, |Entries(Get(schema, "properties"))| + 2
  {
    var props := Get(schema, "properties");
    if Truthy(props) then
      var children :- Collect(PropertyResults(opts, schema));
      Ok(PutChildren(Put(ui, "ui:order", StrArray(Keys(props))), Entries(props), children))
    else Ok(ui)
  }

  /** The items schema is smaller than the array schema holding it. */
  lemma ItemsSmaller(schema: Json)
    requires Truthy(Get(schema, "items"))
    ensures Size(Get(schema, "items")) < Size(schema)
  {
    NamedKey("items");
    GetSmaller(schema, "items");
  }

  /** A property schema is smaller than the object schema holding it. */
  lemma PropertySmaller(schema: Json, i: nat)
    requires Truthy(Get(schema, "properties")) && i < |Entries(Get(schema, "properties"))|
    ensures Size(Entries(Get(schema, "properties"))[i].1) < Size(schema)
  {
    NamedKey("properties");
    GetSmaller(schema, "properties");
  }

  /** The node of each property schema, in entry order; `Collect` runs them
      the way the `for` loop does, stopping at the first that throws. */
  function PropertyResults(opts: Json, schema: Json): (rs: seq<Result<Ui, JsError>>)
    requires Truthy(Get(schema, "properties"))
    ensures |rs| == |Entries(Get(schema, "properties"))|
    decreases Size(schema), 0, |Entries(Get(schema, "properties"))| + 1
  {
    var es := Entries(Get(schema, "properties"));
    seq(|es|, i requires 0 <= i < |es| => PropertyNode(opts, schema, i))
  }

  lemma PropertyResultAt(opts: Json, schema: Json, i: nat)
    requires Truthy(Get(schema, "properties")) && i < |Entries(Get(schema, "properties"))|
    ensures PropertyResults(opts, schema)[i] == PropertyNode(opts, schema, i)
  {
  }

  /** The loop body `uiSchema[key] = child`, over the property entries in order. */
  function PutChildren(base: Ui, es: Fields, children: seq<Ui>): Ui
    requires |children| <= |es|
  {
    if children == [] then base
    else
      var n := |children|;
      Put(PutChildren(base, es, children[..n - 1]), es[n - 1].0, Obj(children[n - 1]))
  }

  /** The node of the `i`-th property schema. */
  function PropertyNode(opts: Json, schema: Json, i: nat): Result<Ui, JsError>
    requires Truthy(Get(schema, "properties")) && i < |Entries(Get(schema, "properties"))|
    decreases Size(schema), 0, i
  {
    PropertySmaller(schema, i);
    ProcessSchema(opts, Entries(Get(schema, "properties"))[i].1, false)
  }

  /** The option labels of an enum: strings capitalised, anything else "Enum <position>". */
  function EnumLabels(es: seq<Json>): (r: seq<Json>)
    ensures |r| == |es|
    ensures forall i :: 0 <= i < |es| ==>
      r[i] == if es[i].Str? then Str(Capitalize(es[i].s)) else Str("Enum " + NatToString(i + 1))
  {
    seq(|es|, i requires 0 <= i < |es| =>
      if es[i].Str? then Str(Capitalize(es[i].s)) else Str("Enum " + NatToString(i + 1)))
  }

  /** The labels an enum field shows: an explicit `enumNames` array, else
      labels derived from `enum`, which must then be an array. */
  function EnumNames(schema: Json): (r: Result<Json, JsError>)
    ensures r.Ok? <==> Get(schema, "enumNames").Arr? || Get(schema, "enum").Arr?
    ensures r.Ok? ==> r.value.Arr?
  {
    var enumNames := Get(schema, "enumNames");
    if Truthy(enumNames) && enumNames.Arr? then Ok(enumNames)
    else
      var e := Get(schema, "enum");
      if e.Arr? then Ok(Arr(EnumLabels(e.elems))) else Failure(TypeError)
  }

  /** `handleEnumProperties`. */
  function HandleEnum(schema: Json, ui: Ui): Result<Ui, JsError> {
    var names :- EnumNames(schema);
    var ui1 := ApplyWidgetDefaults(Put(Put(ui, "ui:enumNames", names), "ui:widget", Str("select")), Str("select"));
    var disabled := Get(schema, "enumDisabled");
    Ok(if Truthy(disabled) then Put(ui1, "ui:enumDisabled", disabled) else ui1)
  }

  /** `applyCommonProperties`; the title goes where `addToUIOptions` would put it. */
  function ApplyCommon(opts: Json, schema: Json, ui: Ui, isRoot: bool): Ui {
    var title := Get(schema, "title");
    var ui1 := if Truthy(title) then AddToUIOptions(opts, ui, "title", title) else ui;
    var description := Get(schema, "description");
    var ui2 := if Truthy(description) then Put(ui1, "ui:description", description) else ui1;
    var ui3 := if !isRoot
               then Put(Put(ui2, "ui:readonly", Or(Get(schema, "readOnly"), Bool(false))),
                        "ui:disabled", Or(Get(schema, "disabled"), Bool(false)))
               else ui2;
    var help := Get(schema, "help");
    if Truthy(help) then Put(ui3, "ui:help", help) else ui3
  }

  // ---------------------------------------------------------------- composition keywords

  predicate IsComposition(key: string) {
    key == "anyOf" || key == "oneOf" || key == "allOf"
  }

  lemma CompositionIsNamed(key: string)
    requires IsComposition(key)
    ensures ParseIndex(key).None?
  {
    assert key[0] == 'a' || key[0] == 'o';
    NamedKey(key);
  }

  /** A sub-schema's node always carries a title and a description, taken from the sub-schema or "". */
  function SubDefaults(sub: Json, subUi: Ui): Ui {
    var ui1 := if !Truthy(Lookup(subUi, "ui:title")) then Put(subUi, "ui:title", Or(Get(sub, "title"), Str(""))) else subUi;
    if !Truthy(Lookup(ui1, "ui:description")) then Put(ui1, "ui:description", Or(Get(sub, "description"), Str(""))) else ui1
  }

  /** A sub-schema is smaller than the schema holding it. */
  lemma SubSmaller(schema: Json, key: string, i: nat)
    requires IsComposition(key) && Get(schema, key).Arr? && i < |Get(schema, key).elems|
    ensures Size(Get(schema, key).elems[i]) < Size(schema)
  {
    CompositionIsNamed(key);
    GetSmaller(schema, key);
    ElemSmaller(Get(schema, key).elems, i);
  }

  /** `schema[key].map(...)`: the node of each sub-schema, in order; `Collect`
      runs them, stopping at the first that throws. */
  function SubResults(opts: Json, schema: Json, key: string): (rs: seq<Result<Json, JsError>>)
    requires IsComposition(key) && Get(schema, key).Arr?
    ensures |rs| == |Get(schema, key).elems|
    decreases Size(schema), 0, |Get(schema, key).elems| + 1
  {
    var subs := Get(schema, key).elems;
    seq(|subs|, i requires 0 <= i < |subs| => SubNode(opts, schema, key, i))
  }

  lemma SubResultAt(opts: Json, schema: Json, key: string, i: nat)
    requires IsComposition(key) && Get(schema, key).Arr? && i < |Get(schema, key).elems|
    ensures SubResults(opts, schema, key)[i] == SubNode(opts, schema, key, i)
  {
  }

  /** The node of the `i`-th sub-schema, with its title and description defaults. */
  function SubNode(opts: Json, schema: Json, key: string, i: nat): Result<Json, JsError>
    requires IsComposition(key) && Get(schema, key).Arr? && i < |Get(schema, key).elems|
    decreases Size(schema), 0, i
  {
    var sub := Get(schema, key).elems[i];
    SubSmaller(schema, key, i);
    var subUi :- ProcessSchema(opts, sub, false);
    Ok(Obj(SubDefaults(sub, subUi)))
  }

  /** The `anyOf`/`oneOf`/`allOf` block for one keyword; `.map` on a non-array throws. */
  function Composition(opts: Json, schema: Json, key: string, ui: Ui): Result<Ui, JsError>
    requires IsComposition(key)
    decreases Size(schema), 2
  {
    var subs := Get(schema, key);
    if !Truthy(subs) then Ok(ui)
    else if !subs.Arr? then Failure(TypeError)
    else
      var mapped :- Collect(SubResults(opts, schema, key));
      Ok(Put(ui, key, Arr(mapped)))
  }

  // ---------------------------------------------------------------- one node

  /** The root-level directives: copyable global options, root field id and submit-button options. */
  function RootDirectives(opts: Json): Result<Ui, JsError> {
    var copyable :- Read(Get(opts, "globalOptions"), "copyable");
    var ui1 := if Truthy(copyable) then [("ui:globalOptions", Obj([("copyable", Bool(true))]))] else [];
    var rootFieldId := Get(opts, "rootFieldId");
    var ui2 := if Truthy(rootFieldId) then Put(ui1, "ui:rootFieldId", rootFieldId) else ui1;
    var submit := Get(opts, "submitButtonOptions");
    Ok(if Truthy(submit) then Put(ui2, "ui:submitButtonOptions", submit) else ui2)
  }

  /** The type names the type switch tells apart are different strings. */
  lemma TypeNamesDiffer()
    ensures "string" != "number" && "string" != "object" && "number" != "object"
    ensures "string" != "integer" && "string" != "boolean" && "string" != "array"
    ensures "integer" != "boolean" && "array" != "object" && "array" != "number"
  {
    assert |"string"| != |"integer"| && |"string"| != |"array"| && |"array"| != |"object"|;
  }

  /** The `switch` on the effective type; a node without a handled type but
      with a composition keyword gets a select widget. */
  function TypeStage(opts: Json, schema: Json, ui: Ui): Result<Ui, JsError>
    decreases Size(schema), 2
  {
    var t := EffectiveType(schema);
    if t == Str("string") then HandleString(opts, schema, ui)
    else if t == Str("number") || t == Str("integer") then HandleNumber(opts, ui)
    else if t == Str("boolean") then HandleBoolean(opts, ui)
    else if t == Str("array") then HandleArray(opts, schema, ui)
    else if t == Str("object") then HandleObject(opts, schema, ui)
    else if Truthy(Get(schema, "anyOf")) || Truthy(Get(schema, "oneOf")) || Truthy(Get(schema, "allOf"))
    then Ok(ApplyWidgetDefaults(Put(ui, "ui:widget", Str("select")), Str("select")))
    else Ok(ui)
  }

  /** The last step: a node with a truthy widget records its field type and empty value. */
  function Finish(schema: Json, ui: Ui): Ui
    requires !schema.Undef? && !schema.Null?
  {
    if Truthy(Lookup(ui, "ui:widget"))
    then Put(Put(ui, "ui:fieldType", DetermineFieldType(schema).value),
             "ui:emptyValue", Or(Get(schema, "default"), Str("")))
    else ui
  }

  /** The node a schema starts from: the root directives at the root, `{}` elsewhere. */
  function NodeBase(opts: Json, isRoot: bool): Result<Ui, JsError> {
    if isRoot then RootDirectives(opts) else Ok([])
  }

  /** The enum step, then the hidden widget. */
  function EnumAndHidden(schema: Json, ui: Ui): Result<Ui, JsError> {
    var ui1 :- if Truthy(Get(schema, "enum")) then HandleEnum(schema, ui) else Ok(ui);
    Ok(if Truthy(Get(schema, "hidden")) then Put(ui1, "ui:widget", Str("hidden")) else ui1)
  }

  /** The three composition blocks, `anyOf`, `oneOf`, `allOf`, in that order. */
  function Compositions(opts: Json, schema: Json, ui: Ui): Result<Ui, JsError>
    decreases Size(schema), 3
  {
    var ui1 :- Composition(opts, schema, "anyOf", ui);
    var ui2 :- Composition(opts, schema, "oneOf", ui1);
    Composition(opts, schema, "allOf", ui2)
  }

  /** Everything `processSchema` does after the type switch. */
  function AfterType(opts: Json, schema: Json, isRoot: bool, ui1: Ui): Result<Ui, JsError>
    requires !schema.Undef? && !schema.Null?
    decreases Size(schema), 4
  {
    var ui2 := ApplyCommon(opts, schema, ui1, isRoot);
    var ui4 :- EnumAndHidden(schema, ui2);
    var ui5 :- Compositions(opts, schema, ui4);
    Ok(Finish(schema, ui5))
  }

  /** `processSchema(schema, path, isRoot)`; the path argument is never read and is left out. */
  function ProcessSchema(opts: Json, schema: Json, isRoot: bool): Result<Ui, JsError>
    decreases Size(schema), 5
  {
    var ui0 :- NodeBase(opts, isRoot);
    if schema.Undef? || schema.Null? then Failure(TypeError)
    else
      var ui1 :- TypeStage(opts, schema, ui0);
      AfterType(opts, schema, isRoot, ui1)
  }

  /** `generateUISchema(jsonSchema, options)`. */
  function GenerateUISchema(jsonSchema: Json, options: Json): Result<Json, JsError> {
    var ui :- ProcessSchema(DefaultOptions(options), jsonSchema, true);
    Ok(Obj(ui))
  }
}
