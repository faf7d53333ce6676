/** The builder as the program runs it: `processSchema` allocates an empty
    node object and every helper writes into it in place. Each method here is
    proved to leave the node holding exactly what the matching function of
    `Generator` describes, or to report the exception that function throws. */
module GeneratorImpl {
  import opened Wrappers
  import opened Json
  import opened FieldType
  import opened Generator

  /** What a step that may throw leaves: the exception, or the node it built. */
  function Outcome(thrown: Option<JsError>, fs: Ui): Result<Ui, JsError> {
    if thrown.Some? then Failure(thrown.value) else Ok(fs)
  }

  /** `const uiSchema = {}` and the writes the helpers make into it. */
  class UiNode {
    var fields: Ui

    constructor (fs: Ui)
      ensures fields == fs
    {
      fields := fs;
    }

    /** `uiSchema[k] = v`. */
    method Set(k: string, v: Json)
      modifies this
      ensures fields == Put(old(fields), k, v)
    {
      fields := Put(fields, k, v);
    }

    /** `if (uiSchema[k] === undefined) uiSchema[k] = v`. */
    method Fill(k: string, v: Json)
      modifies this
      ensures fields == FillIfUndefined(old(fields), k, v)
    {
      if Lookup(fields, k) == Undef {
        Set(k, v);
      }
    }

    /** `applyWidgetDefaults(uiSchema, widget)`. */
    method ApplyDefaults(widget: Json)
      modifies this
      ensures fields == ApplyWidgetDefaults(old(fields), widget)
    {
      if widget == Str("textarea") {
        Fill("ui:rows", Num(5));
        Fill("ui:autocomplete", Str("off"));
      } else if widget == Str("file") {
        Fill("ui:filePreview", Bool(false));
        Fill("ui:accept", Str(""));
      } else if widget == Str("text") {
        Fill("ui:inputType", Str(""));
      }
    }

    /** `addToUIOptions(uiSchema, key, value)`. */
    method AddOption(opts: Json, key: string, value: Json)
      modifies this
      ensures fields == AddToUIOptions(opts, old(fields), key, value)
    {
      if Wrapped(opts) {
        Set("ui:options", Obj(Put(OptionsBag(fields), key, value)));
      } else {
        Set("ui:" + key, value);
      }
    }

    /** The root-level directives, written into the empty root node. */
    method RootDirectives(opts: Json) returns (thrown: Option<JsError>)
      requires fields == []
      modifies this
      ensures Outcome(thrown, fields) == Generator.RootDirectives(opts)
    {
      var copyable := Read(Get(opts, "globalOptions"), "copyable");
      if copyable.Failure? {
        return Some(copyable.error);
      }
      if Truthy(copyable.value) {
        Set("ui:globalOptions", Obj([("copyable", Bool(true))]));
      }
      var rootFieldId := Get(opts, "rootFieldId");
      if Truthy(rootFieldId) {
        Set("ui:rootFieldId", rootFieldId);
      }
      var submit := Get(opts, "submitButtonOptions");
      if Truthy(submit) {
        Set("ui:submitButtonOptions", submit);
      }
      return None;
    }

    /** `handleTextareaOptions`: the three options, in their literal's order. */
    method TextareaOptions(opts: Json, schema: Json)
      modifies this
      ensures fields == Generator.TextareaOptions(opts, schema, old(fields))
    {
      AddOption(opts, "widget", Str("textarea"));
      AddOption(opts, "autocomplete", Str("on"));
      AddOption(opts, "rows", TextareaRows(schema));
    }

    /** `handleStringType`. */
    method HandleString(opts: Json, schema: Json) returns (thrown: Option<JsError>)
      modifies this
      ensures Outcome(thrown, fields) == Generator.HandleString(opts, schema, old(fields))
    {
      var widget := StringWidget(opts, schema);
      if widget.Failure? {
        return Some(widget.error);
      }
      Set("ui:widget", widget.value);
      if Get(schema, "format") == Str("data-url") {
        Set("ui:widget", Str("file"));
        ApplyDefaults(Str("file"));
      }
      ApplyDefaults(Lookup(fields, "ui:widget"));
      if widget.value == Str("textarea") {
        TextareaOptions(opts, schema);
      }
      var inputType := Get(schema, "inputType");
      if Truthy(inputType) {
        AddOption(opts, "inputType", inputType);
      }
      thrown := Placeholder(opts, schema);
    }

    /** The placeholder, which reads the title, and the autofocus flag. */
    method Placeholder(opts: Json, schema: Json) returns (thrown: Option<JsError>)
      modifies this
      ensures var subject := PlaceholderSubject(schema);
        Outcome(thrown, fields) ==
          if subject.Failure? then Failure(subject.error)
          else Ok(Put(AddToUIOptions(opts, old(fields), "placeholder", Str("Enter " + subject.value)),
                      "ui:autofocus", Or(Get(schema, "autofocus"), Bool(false))))
    {
      var subject := PlaceholderSubject(schema);
      if subject.Failure? {
        return Some(subject.error);
      }
      AddOption(opts, "placeholder", Str("Enter " + subject.value));
      Set("ui:autofocus", Or(Get(schema, "autofocus"), Bool(false)));
      return None;
    }

    /** `handleNumberType`. */
    method HandleNumber(opts: Json) returns (thrown: Option<JsError>)
      modifies this
      ensures Outcome(thrown, fields) == Generator.HandleNumber(opts, old(fields))
    {
      var widget := DefaultWidget(opts, "number");
      if widget.Failure? {
        return Some(widget.error);
      }
      Set("ui:widget", widget.value);
      ApplyDefaults(Lookup(fields, "ui:widget"));
      return None;
    }

    /** `handleBooleanType`. */
    method HandleBoolean(opts: Json) returns (thrown: Option<JsError>)
      modifies this
      ensures Outcome(thrown, fields) == Generator.HandleBoolean(opts, old(fields))
    {
      var widget := DefaultWidget(opts, "boolean");
      if widget.Failure? {
        return Some(widget.error);
      }
      Set("ui:widget", widget.value);
      return None;
    }

    /** `applyCommonProperties`. */
    method ApplyCommon(opts: Json, schema: Json, isRoot: bool)
      modifies this
      ensures fields == Generator.ApplyCommon(opts, schema, old(fields), isRoot)
    {
      var title := Get(schema, "title");
      if Truthy(title) {
        AddOption(opts, "title", title);
      }
      var description := Get(schema, "description");
      if Truthy(description) {
        Set("ui:description", description);
      }
      if !isRoot {
        Set("ui:readonly", Or(Get(schema, "readOnly"), Bool(false)));
        Set("ui:disabled", Or(Get(schema, "disabled"), Bool(false)));
      }
      var help := Get(schema, "help");
      if Truthy(help) {
        Set("ui:help", help);
      }
    }

    /** `handleEnumProperties`. */
    method HandleEnum(schema: Json) returns (thrown: Option<JsError>)
      modifies this
      ensures Outcome(thrown, fields) == Generator.HandleEnum(schema, old(fields))
    {
      var names := EnumNames(schema);
      if names.Failure? {
        return Some(names.error);
      }
      Set("ui:enumNames", names.value);
      Set("ui:widget", Str("select"));
      ApplyDefaults(Str("select"));
      var disabled := Get(schema, "enumDisabled");
      if Truthy(disabled) {
        Set("ui:enumDisabled", disabled);
      }
      return None;
    }

    /** The enum step, then the hidden widget. */
    method EnumAndHidden(schema: Json) returns (thrown: Option<JsError>)
      modifies this
      ensures Outcome(thrown, fields) == Generator.EnumAndHidden(schema, old(fields))
    {
      if Truthy(Get(schema, "enum")) {
        thrown := HandleEnum(schema);
        if thrown.Some? {
          return;
        }
      }
      if Truthy(Get(schema, "hidden")) {
        Set("ui:widget", Str("hidden"));
      }
      return None;
    }

    /** The title and description a sub-schema's node falls back to. */
    method SubDefaults(sub: Json)
      modifies this
      ensures fields == Generator.SubDefaults(sub, old(fields))
    {
      if !Truthy(Lookup(fields, "ui:title")) {
        Set("ui:title", Or(Get(sub, "title"), Str("")));
      }
      if !Truthy(Lookup(fields, "ui:description")) {
        Set("ui:description", Or(Get(sub, "description"), Str("")));
      }
    }

    /** The field type and empty value of a node with a truthy widget. */
    method Finish(schema: Json)
      requires !schema.Undef? && !schema.Null?
      modifies this
      ensures fields == Generator.Finish(schema, old(fields))
    {
      if Truthy(Lookup(fields, "ui:widget")) {
        Set("ui:fieldType", DetermineFieldType(schema).value);
        Set("ui:emptyValue", Or(Get(schema, "default"), Str("")));
      }
    }
  }

  /** `processSchema(schema, path, isRoot)`: a fresh node, filled step by step. */
  method ProcessSchema(opts: Json, schema: Json, isRoot: bool) returns (r: Result<Ui, JsError>)
    ensures r == Generator.ProcessSchema(opts, schema, isRoot)
    decreases Size(schema), 5
  {
    var node := new UiNode([]);
    if isRoot {
      var thrown := node.RootDirectives(opts);
      if thrown.Some? {
        return Failure(thrown.value);
      }
    }
    r := NodeBody(opts, schema, isRoot, node);
  }

  /** The type check, the type switch and the steps after it, on the node built so far. */
  method NodeBody(opts: Json, schema: Json, isRoot: bool, node: UiNode) returns (r: Result<Ui, JsError>)
    modifies node
    ensures r == if schema.Undef? || schema.Null? then Failure(TypeError)
      else var ui1 := Generator.TypeStage(opts, schema, old(node.fields));
        if ui1.Failure? then Failure(ui1.error) else Generator.AfterType(opts, schema, isRoot, ui1.value)
    decreases Size(schema), 4, 1
  {
    if schema.Undef? || schema.Null? {
      return Failure(TypeError);
    }
    var thrown := TypeStage(opts, schema, node);
    if thrown.Some? {
      return Failure(thrown.value);
    }
    thrown := AfterType(opts, schema, isRoot, node);
    return Outcome(thrown, node.fields);
  }

  /** Everything `processSchema` does after the type switch. */
  method AfterType(opts: Json, schema: Json, isRoot: bool, node: UiNode) returns (thrown: Option<JsError>)
    requires !schema.Undef? && !schema.Null?
    modifies node
    ensures Outcome(thrown, node.fields) == Generator.AfterType(opts, schema, isRoot, old(node.fields))
    decreases Size(schema), 4, 0
  {
    node.ApplyCommon(opts, schema, isRoot);
    thrown := node.EnumAndHidden(schema);
    if thrown.Some? {
      return;
    }
    thrown := Compositions(opts, schema, node);
    if thrown.Some? {
      return;
    }
    node.Finish(schema);
  }

  /** The `switch` on the effective type. */
  method TypeStage(opts: Json, schema: Json, node: UiNode) returns (thrown: Option<JsError>)
    modifies node
    ensures Outcome(thrown, node.fields) == Generator.TypeStage(opts, schema, old(node.fields))
    decreases Size(schema), 2
  {
    var t := EffectiveType(schema);
    TypeNamesDiffer();
    if t == Str("string") {
      thrown := node.HandleString(opts, schema);
    } else if t == Str("number") || t == Str("integer") {
      thrown := node.HandleNumber(opts);
    } else if t == Str("boolean") {
      thrown := node.HandleBoolean(opts);
    } else if t == Str("array") {
      thrown := HandleArray(opts, schema, node);
    } else if t == Str("object") {
      thrown := HandleObject(opts, schema, node);
    } else {
      if Truthy(Get(schema, "anyOf")) || Truthy(Get(schema, "oneOf")) || Truthy(Get(schema, "allOf")) {
        node.Set("ui:widget", Str("select"));
        node.ApplyDefaults(Str("select"));
      }
      thrown := None;
    }
  }

  /** `handleArrayType`. */
  method HandleArray(opts: Json, schema: Json, node: UiNode) returns (thrown: Option<JsError>)
    modifies node
    ensures Outcome(thrown, node.fields) == Generator.HandleArray(opts, schema, old(node.fields))
    decreases Size(schema), 1
  {
    node.AddOption(opts, "arrayOptions", ArrayOptions);
    thrown := ArrayItems(opts, schema, node);
    if thrown.Some? {
      return;
    }
    if Truthy(Get(schema, "filePreview")) {
      node.AddOption(opts, "filePreview", Bool(true));
    }
  }

  /** The items node: merged in for enum items, nested under `items` otherwise. */
  method ArrayItems(opts: Json, schema: Json, node: UiNode) returns (thrown: Option<JsError>)
    modifies node
    ensures Outcome(thrown, node.fields) == Generator.ArrayItems(opts, schema, old(node.fields))
    decreases Size(schema), 0
  {
    var items := Get(schema, "items");
    if Truthy(items) {
      ItemsSmaller(schema);
      var itemsUi := ProcessSchema(opts, items, false);
      if itemsUi.Failure? {
        return Some(itemsUi.error);
      }
      if Truthy(Get(items, "enum")) {
        node.fields := PutAll(node.fields, itemsUi.value);
      } else {
        node.Set("items", Obj(itemsUi.value));
      }
    }
    return None;
  }

  /** `handleObjectType`. */
  method HandleObject(opts: Json, schema: Json, node: UiNode) returns (thrown: Option<JsError>)
    modifies node
    ensures Outcome(thrown, node.fields) == Generator.HandleObject(opts, schema, old(node.fields))
    decreases Size(schema), 1
  {
    if Truthy(Get(schema, "properties")) {
      thrown := ObjectProperties(opts, schema, node);
      if thrown.Some? {
        return;
      }
    }
    if Truthy(Get(schema, "additionalProperties")) {
      node.AddOption(opts, "duplicateKeySuffixSeparator", Or(Get(schema, "duplicateKeySuffixSeparator"), Str("-")));
    }
    return None;
  }

  /** `ui:order`, then the `for` loop writing one child per property entry. */
  method ObjectProperties(opts: Json, schema: Json, node: UiNode) returns (thrown: Option<JsError>)
    requires Truthy(Get(schema, "properties"))
    modifies node
    ensures Outcome(thrown, node.fields) == Generator.ObjectProperties(opts, schema, old(node.fields))
    decreases Size(schema), 0, |Entries(Get(schema, "properties"))| + 2
  {
    var props := Get(schema, "properties");
    ObjectPropertiesIs(opts, schema, node.fields);
    node.Set("ui:order", StrArray(Keys(props)));
    ghost var children;
    thrown, children := PropertyLoop(opts, schema, node);
  }

  /** `ObjectProperties` as the run of the property nodes and the writes it makes. */
  lemma ObjectPropertiesIs(opts: Json, schema: Json, ui: Ui)
    requires Truthy(Get(schema, "properties"))
    ensures var props := Get(schema, "properties");
      var c := Collect(PropertyResults(opts, schema));
      Generator.ObjectProperties(opts, schema, ui) ==
        if c.Failure? then Failure(c.error)
        else Ok(PutChildren(Put(ui, "ui:order", StrArray(Keys(props))), Entries(props), c.value))
  {
  }

  /** The `for` loop: one child node per property entry, written in entry order;
      a child that throws ends the loop with its exception. */
  method PropertyLoop(opts: Json, schema: Json, node: UiNode) returns (thrown: Option<JsError>, ghost children: seq<Ui>)
    requires Truthy(Get(schema, "properties"))
    modifies node
    ensures var c := Collect(PropertyResults(opts, schema));
      thrown.None? ==> (c == Ok(children) &&
                        node.fields == PutChildren(old(node.fields), Entries(Get(schema, "properties")), children))
    ensures thrown.Some? ==> Collect(PropertyResults(opts, schema)) == Failure(thrown.value)
    decreases Size(schema), 0, |Entries(Get(schema, "properties"))| + 1
  {
    var es := Entries(Get(schema, "properties"));
    ghost var rs := PropertyResults(opts, schema);
    ghost var base := node.fields;
    children := [];
    thrown := None;
    var i := 0;
    while i < |es| && thrown.None?
      invariant 0 <= i <= |es|
      invariant thrown.None? ==> (|children| == i && Collect(rs[..i]) == Ok(children) &&
                                  node.fields == PutChildren(base, es, children))
      invariant thrown.Some? ==> Collect(rs) == Failure(thrown.value)
    {
      thrown, children := PropertyStep(opts, schema, node, i, base, children);
      i := i + 1;
    }
    if thrown.None? {
      assert rs[..i] == rs;
    }
  }

  /** One pass of the `for` loop: the next child written, or the exception that ends the loop. */
  method PropertyStep(opts: Json, schema: Json, node: UiNode, i: nat, ghost base: Ui, ghost children: seq<Ui>)
    returns (thrown: Option<JsError>, ghost children': seq<Ui>)
    requires Truthy(Get(schema, "properties")) && i == |children| < |Entries(Get(schema, "properties"))|
    requires Collect(PropertyResults(opts, schema)[..i]) == Ok(children)
    requires node.fields == PutChildren(base, Entries(Get(schema, "properties")), children)
    modifies node
    ensures thrown.None? ==> (|children'| == i + 1 && Collect(PropertyResults(opts, schema)[..i + 1]) == Ok(children') &&
                              node.fields == PutChildren(base, Entries(Get(schema, "properties")), children'))
    ensures thrown.Some? ==> Collect(PropertyResults(opts, schema)) == Failure(thrown.value)
    decreases Size(schema), 0, i + 1
  {
    var es := Entries(Get(schema, "properties"));
    ghost var rs := PropertyResults(opts, schema);
    var child := PropertyChild(opts, schema, i);
    CollectSnoc(rs, i);
    if child.Failure? {
      CollectStop(rs, i + 1, |rs|);
      assert rs[..|rs|] == rs;
      return Some(child.error), children;
    }
    node.Set(es[i].0, Obj(child.value));
    PutChildrenSnoc(base, es, children, child.value);
    return None, children + [child.value];
  }

  /** The node of one property entry: `processSchema(propSchema, path, false)`. */
  method PropertyChild(opts: Json, schema: Json, i: nat) returns (child: Result<Ui, JsError>)
    requires Truthy(Get(schema, "properties")) && i < |Entries(Get(schema, "properties"))|
    ensures child == PropertyResults(opts, schema)[i]
    decreases Size(schema), 0, i
  {
    PropertySmaller(schema, i);
    PropertyResultAt(opts, schema, i);
    child := ProcessSchema(opts, Entries(Get(schema, "properties"))[i].1, false);
  }

  lemma PutChildrenSnoc(base: Ui, es: Fields, children: seq<Ui>, c: Ui)
    requires |children| < |es|
    ensures PutChildren(base, es, children + [c]) == Put(PutChildren(base, es, children), es[|children|].0, Obj(c))
  {
    assert (children + [c])[..|children|] == children;
  }

  /** `uiSchema[key] = schema[key].map(...)`, when `schema[key]` is truthy. */
  method Composition(opts: Json, schema: Json, key: string, node: UiNode) returns (thrown: Option<JsError>)
    requires IsComposition(key)
    modifies node
    ensures Outcome(thrown, node.fields) == Generator.Composition(opts, schema, key, old(node.fields))
    decreases Size(schema), 2
  {
    var subs := Get(schema, key);
    CompositionIs(opts, schema, key, node.fields);
    if !Truthy(subs) {
      return None;
    }
    if !subs.Arr? {
      return Some(TypeError);
    }
    var mapped;
    thrown, mapped := ComposeLoop(opts, schema, key);
    if thrown.None? {
      node.Set(key, Arr(mapped));
    }
  }

  /** `Composition` as the run of the sub-nodes and the one write it makes. */
  lemma CompositionIs(opts: Json, schema: Json, key: string, ui: Ui)
    requires IsComposition(key)
    ensures var subs := Get(schema, key);
      Generator.Composition(opts, schema, key, ui) ==
        if !Truthy(subs) then Ok(ui)
        else if !subs.Arr? then Failure(TypeError)
        else
          var c := Collect(SubResults(opts, schema, key));
          if c.Failure? then Failure(c.error) else Ok(Put(ui, key, Arr(c.value)))
  {
  }

  /** The `map` over the sub-schemas: one node per sub-schema, in order; a
      sub-schema that throws ends the map with its exception. */
  method ComposeLoop(opts: Json, schema: Json, key: string) returns (thrown: Option<JsError>, mapped: seq<Json>)
    requires IsComposition(key) && Get(schema, key).Arr?
    ensures thrown.None? ==> Collect(SubResults(opts, schema, key)) == Ok(mapped)
    ensures thrown.Some? ==> Collect(SubResults(opts, schema, key)) == Failure(thrown.value)
    decreases Size(schema), 1
  {
    var n := |Get(schema, key).elems|;
    ghost var rs := SubResults(opts, schema, key);
    mapped := [];
    thrown := None;
    var i := 0;
    while i < n && thrown.None?
      invariant 0 <= i <= n
      invariant thrown.None? ==> Collect(rs[..i]) == Ok(mapped)
      invariant thrown.Some? ==> Collect(rs) == Failure(thrown.value)
    {
      var sub := SubChild(opts, schema, key, i);
      CollectSnoc(rs, i);
      if sub.Failure? {
        CollectStop(rs, i + 1, n);
        assert rs[..n] == rs;
        thrown := Some(sub.error);
      } else {
        mapped := mapped + [sub.value];
      }
      i := i + 1;
    }
    if thrown.None? {
      assert rs[..i] == rs;
    }
  }

  /** One step of the `map`: the sub-schema's node with its title and description defaults. */
  method SubChild(opts: Json, schema: Json, key: string, i: nat) returns (sub: Result<Json, JsError>)
    requires IsComposition(key) && Get(schema, key).Arr? && i < |Get(schema, key).elems|
    ensures sub == SubResults(opts, schema, key)[i]
    decreases Size(schema), 0, i
  {
    var s := Get(schema, key).elems[i];
    SubSmaller(schema, key, i);
    SubResultAt(opts, schema, key, i);
    var subUi := ProcessSchema(opts, s, false);
    if subUi.Failure? {
      return Failure(subUi.error);
    }
    var subNode := new UiNode(subUi.value);
    subNode.SubDefaults(s);
    return Ok(Obj(subNode.fields));
  }

  /** The three composition blocks, in order. */
  method Compositions(opts: Json, schema: Json, node: UiNode) returns (thrown: Option<JsError>)
    modifies node
    ensures Outcome(thrown, node.fields) == Generator.Compositions(opts, schema, old(node.fields))
    decreases Size(schema), 3
  {
    thrown := Composition(opts, schema, "anyOf", node);
    if thrown.Some? {
      return;
    }
    thrown := Composition(opts, schema, "oneOf", node);
    if thrown.Some? {
      return;
    }
    thrown := Composition(opts, schema, "allOf", node);
  }

  /** `generateUISchema(jsonSchema, options)`. */
  method GenerateUISchema(jsonSchema: Json, options: Json) returns (r: Result<Json, JsError>)
    ensures r == Generator.GenerateUISchema(jsonSchema, options)
  {
    var ui := ProcessSchema(DefaultOptions(options), jsonSchema, true);
    if ui.Failure? {
      return Failure(ui.error);
    }
    return Ok(Obj(ui.value));
  }
}
