/** What the nodes `generateUISchema` builds contain: which step owns which
    key, the keys each rule writes, and that a node never repeats a key. */
module GeneratorShape {
  import opened Wrappers
  import opened Strings
  import opened Json
  import opened FieldType
  import opened Generator
  import opened GeneratorProps

  // ---------------------------------------------------------------- frames

  /** `r` agrees with `ui` on every key outside `ks`. */
  ghost predicate Keeps(r: Ui, ui: Ui, ks: set<string>) {
    forall k :: k !in ks ==> Lookup(r, k) == Lookup(ui, k)
  }

  /** The keys `applyWidgetDefaults` may fill. */
  const DefaultKeys: set<string> := {"ui:rows", "ui:autocomplete", "ui:filePreview", "ui:accept", "ui:inputType"}

  /** The keys `applyCommonProperties` may write. */
  function CommonKeys(opts: Json): set<string> {
    {OptionSlot(opts, "title"), "ui:description", "ui:readonly", "ui:disabled", "ui:help"}
  }

  /** The keys the steps after `applyCommonProperties` may write: enum, hidden, compositions, field type. */
  const LateKeys: set<string> :=
    {"ui:enumNames", "ui:widget", "ui:enumDisabled", "anyOf", "oneOf", "allOf", "ui:fieldType", "ui:emptyValue"}

  lemma PrefixedSlot(key: string, k: string)
    requires "ui:" + k == "ui:" + key
    ensures k == key
  {
    assert k == ("ui:" + k)[3..];
    assert key == ("ui:" + key)[3..];
  }

  /** `applyWidgetDefaults` fills only the widget's own default keys, and only
      `textarea`, `file` and `text` have any. */
  lemma WidgetDefaultsFrame(ui: Ui, widget: Json)
    ensures Keeps(ApplyWidgetDefaults(ui, widget), ui, DefaultKeys)
    ensures widget != Str("textarea") && widget != Str("file") && widget != Str("text") ==>
      ApplyWidgetDefaults(ui, widget) == ui
  {
    var r := ApplyWidgetDefaults(ui, widget);
    forall k | k !in DefaultKeys ensures Lookup(r, k) == Lookup(ui, k) {
      assert Lookup(WidgetDefaults(widget), k) == Undef;
    }
  }

  /** The value an option has after `addToUIOptions`: the one written for its
      own key, the old one for every other key. */
  lemma OptionValueAdd(opts: Json, ui: Ui, key: string, v: Json, key': string)
    ensures OptionValue(opts, AddToUIOptions(opts, ui, key, v), key') ==
      if key' == key then v else OptionValue(opts, ui, key')
  {
    if !Wrapped(opts) && key' != key && "ui:" + key' == "ui:" + key {
      PrefixedSlot(key, key');
    }
  }

  /** An option is not disturbed by writes to keys other than its slot. */
  lemma OptionValueKept(opts: Json, r: Ui, ui: Ui, ks: set<string>, key: string)
    requires Keeps(r, ui, ks) && "ui:options" !in ks && "ui:" + key !in ks
    ensures OptionValue(opts, r, key) == OptionValue(opts, ui, key)
  {
    assert Lookup(r, "ui:options") == Lookup(ui, "ui:options");
    assert Lookup(r, "ui:" + key) == Lookup(ui, "ui:" + key);
  }

  // ---------------------------------------------------------------- distinct keys

  lemma AddToUIOptionsDistinct(opts: Json, ui: Ui, key: string, v: Json)
    requires DistinctKeys(ui)
    ensures DistinctKeys(AddToUIOptions(opts, ui, key, v))
  {
    if Wrapped(opts) {
      PutKeepsDistinct(ui, "ui:options", Obj(Put(OptionsBag(ui), key, v)));
    } else {
      PutKeepsDistinct(ui, "ui:" + key, v);
    }
  }

  lemma FillDistinct(ui: Ui, k: string, v: Json)
    requires DistinctKeys(ui)
    ensures DistinctKeys(FillIfUndefined(ui, k, v))
  {
    PutKeepsDistinct(ui, k, v);
  }

  lemma WidgetDefaultsDistinct(ui: Ui, widget: Json)
    requires DistinctKeys(ui)
    ensures DistinctKeys(ApplyWidgetDefaults(ui, widget))
  {
    match widget
    case Str("textarea") =>
      FillDistinct(ui, "ui:rows", Num(5));
      FillDistinct(FillIfUndefined(ui, "ui:rows", Num(5)), "ui:autocomplete", Str("off"));
    case Str("file") =>
      FillDistinct(ui, "ui:filePreview", Bool(false));
      FillDistinct(FillIfUndefined(ui, "ui:filePreview", Bool(false)), "ui:accept", Str(""));
    case Str("text") =>
      FillDistinct(ui, "ui:inputType", Str(""));
    case _ =>
  }

  lemma RootDirectivesDistinct(opts: Json)
    requires RootDirectives(opts).Ok?
    ensures DistinctKeys(RootDirectives(opts).value)
  {
    var copyable := Read(Get(opts, "globalOptions"), "copyable").value;
    var ui1: Ui := if Truthy(copyable) then [("ui:globalOptions", Obj([("copyable", Bool(true))]))] else [];
    var rootFieldId := Get(opts, "rootFieldId");
    PutKeepsDistinct(ui1, "ui:rootFieldId", rootFieldId);
    var ui2 := if Truthy(rootFieldId) then Put(ui1, "ui:rootFieldId", rootFieldId) else ui1;
    PutKeepsDistinct(ui2, "ui:submitButtonOptions", Get(opts, "submitButtonOptions"));
  }

  lemma HandleStringDistinct(opts: Json, schema: Json, ui: Ui)
    requires DistinctKeys(ui) && HandleString(opts, schema, ui).Ok?
    ensures DistinctKeys(HandleString(opts, schema, ui).value)
  {
    var widget := StringWidget(opts, schema).value;
    var ui1 := Put(ui, "ui:widget", widget);
    PutKeepsDistinct(ui, "ui:widget", widget);
    PutKeepsDistinct(ui1, "ui:widget", Str("file"));
    WidgetDefaultsDistinct(Put(ui1, "ui:widget", Str("file")), Str("file"));
    var ui2 := if Get(schema, "format") == Str("data-url")
               then ApplyWidgetDefaults(Put(ui1, "ui:widget", Str("file")), Str("file"))
               else ui1;
    WidgetDefaultsDistinct(ui2, Lookup(ui2, "ui:widget"));
    var ui3 := ApplyWidgetDefaults(ui2, Lookup(ui2, "ui:widget"));
    AddToUIOptionsDistinct(opts, ui3, "widget", Str("textarea"));
    var t1 := AddToUIOptions(opts, ui3, "widget", Str("textarea"));
    AddToUIOptionsDistinct(opts, t1, "autocomplete", Str("on"));
    var t2 := AddToUIOptions(opts, t1, "autocomplete", Str("on"));
    AddToUIOptionsDistinct(opts, t2, "rows", TextareaRows(schema));
    var ui4 := if widget == Str("textarea") then TextareaOptions(opts, schema, ui3) else ui3;
    var inputType := Get(schema, "inputType");
    AddToUIOptionsDistinct(opts, ui4, "inputType", inputType);
    var ui5 := if Truthy(inputType) then AddToUIOptions(opts, ui4, "inputType", inputType) else ui4;
    var subject := PlaceholderSubject(schema).value;
    AddToUIOptionsDistinct(opts, ui5, "placeholder", Str("Enter " + subject));
    var ui6 := AddToUIOptions(opts, ui5, "placeholder", Str("Enter " + subject));
    PutKeepsDistinct(ui6, "ui:autofocus", Or(Get(schema, "autofocus"), Bool(false)));
  }

  lemma PutChildrenDistinct(base: Ui, es: Fields, children: seq<Ui>)
    requires |children| <= |es| && DistinctKeys(base)
    ensures DistinctKeys(PutChildren(base, es, children))
    decreases |children|
  {
    if children != [] {
      var n := |children|;
      PutChildrenDistinct(base, es, children[..n - 1]);
      PutKeepsDistinct(PutChildren(base, es, children[..n - 1]), es[n - 1].0, Obj(children[n - 1]));
    }
  }

  lemma ArrayItemsDistinct(opts: Json, schema: Json, ui: Ui)
    requires DistinctKeys(ui) && ArrayItems(opts, schema, ui).Ok?
    ensures DistinctKeys(ArrayItems(opts, schema, ui).value)
  {
    var items := Get(schema, "items");
    if Truthy(items) {
      ItemsSmaller(schema);
      var itemsUi := ProcessSchema(opts, items, false).value;
      PutAllKeepsDistinct(ui, itemsUi);
      PutKeepsDistinct(ui, "items", Obj(itemsUi));
    }
  }

  lemma HandleArrayDistinct(opts: Json, schema: Json, ui: Ui)
    requires DistinctKeys(ui) && HandleArray(opts, schema, ui).Ok?
    ensures DistinctKeys(HandleArray(opts, schema, ui).value)
  {
    AddToUIOptionsDistinct(opts, ui, "arrayOptions", ArrayOptions);
    var ui1 := AddToUIOptions(opts, ui, "arrayOptions", ArrayOptions);
    ArrayItemsDistinct(opts, schema, ui1);
    AddToUIOptionsDistinct(opts, ArrayItems(opts, schema, ui1).value, "filePreview", Bool(true));
  }

  lemma HandleObjectDistinct(opts: Json, schema: Json, ui: Ui)
    requires DistinctKeys(ui) && HandleObject(opts, schema, ui).Ok?
    ensures DistinctKeys(HandleObject(opts, schema, ui).value)
  {
    var props := Get(schema, "properties");
    if Truthy(props) {
      var base := Put(ui, "ui:order", StrArray(Keys(props)));
      PutKeepsDistinct(ui, "ui:order", StrArray(Keys(props)));
      PutChildrenDistinct(base, Entries(props), Collect(PropertyResults(opts, schema)).value);
    }
    AddToUIOptionsDistinct(opts, ObjectProperties(opts, schema, ui).value, "duplicateKeySuffixSeparator",
                           Or(Get(schema, "duplicateKeySuffixSeparator"), Str("-")));
  }

  lemma TypeStageDistinct(opts: Json, schema: Json, ui: Ui)
    requires DistinctKeys(ui) && TypeStage(opts, schema, ui).Ok?
    ensures DistinctKeys(TypeStage(opts, schema, ui).value)
  {
    var t := EffectiveType(schema);
    if t == Str("string") {
      HandleStringDistinct(opts, schema, ui);
    } else if t == Str("number") || t == Str("integer") {
      var widget := DefaultWidget(opts, "number").value;
      PutKeepsDistinct(ui, "ui:widget", widget);
      WidgetDefaultsDistinct(Put(ui, "ui:widget", widget), widget);
    } else if t == Str("boolean") {
      PutKeepsDistinct(ui, "ui:widget", DefaultWidget(opts, "boolean").value);
    } else if t == Str("array") {
      HandleArrayDistinct(opts, schema, ui);
    } else if t == Str("object") {
      HandleObjectDistinct(opts, schema, ui);
    } else {
      PutKeepsDistinct(ui, "ui:widget", Str("select"));
      WidgetDefaultsDistinct(Put(ui, "ui:widget", Str("select")), Str("select"));
    }
  }

  lemma ApplyCommonDistinct(opts: Json, schema: Json, ui: Ui, isRoot: bool)
    requires DistinctKeys(ui)
    ensures DistinctKeys(ApplyCommon(opts, schema, ui, isRoot))
  {
    var title := Get(schema, "title");
    AddToUIOptionsDistinct(opts, ui, "title", title);
    var ui1 := if Truthy(title) then AddToUIOptions(opts, ui, "title", title) else ui;
    var description := Get(schema, "description");
    PutKeepsDistinct(ui1, "ui:description", description);
    var ui2 := if Truthy(description) then Put(ui1, "ui:description", description) else ui1;
    var readonly := Or(Get(schema, "readOnly"), Bool(false));
    PutKeepsDistinct(ui2, "ui:readonly", readonly);
    PutKeepsDistinct(Put(ui2, "ui:readonly", readonly), "ui:disabled", Or(Get(schema, "disabled"), Bool(false)));
    var ui3 := if !isRoot
               then Put(Put(ui2, "ui:readonly", readonly), "ui:disabled", Or(Get(schema, "disabled"), Bool(false)))
               else ui2;
    PutKeepsDistinct(ui3, "ui:help", Get(schema, "help"));
  }

  lemma EnumAndHiddenDistinct(schema: Json, ui: Ui)
    requires DistinctKeys(ui) && EnumAndHidden(schema, ui).Ok?
    ensures DistinctKeys(EnumAndHidden(schema, ui).value)
  {
    var ui1 := ui;
    if Truthy(Get(schema, "enum")) {
      var names := EnumNames(schema).value;
      PutKeepsDistinct(ui, "ui:enumNames", names);
      var e1 := Put(ui, "ui:enumNames", names);
      PutKeepsDistinct(e1, "ui:widget", Str("select"));
      WidgetDefaultsDistinct(Put(e1, "ui:widget", Str("select")), Str("select"));
      var e2 := ApplyWidgetDefaults(Put(e1, "ui:widget", Str("select")), Str("select"));
      PutKeepsDistinct(e2, "ui:enumDisabled", Get(schema, "enumDisabled"));
      ui1 := HandleEnum(schema, ui).value;
    }
    PutKeepsDistinct(ui1, "ui:widget", Str("hidden"));
  }

  lemma CompositionsDistinct(opts: Json, schema: Json, ui: Ui)
    requires DistinctKeys(ui) && Compositions(opts, schema, ui).Ok?
    ensures DistinctKeys(Compositions(opts, schema, ui).value)
  {
    var r1 := Composition(opts, schema, "anyOf", ui).value;
    CompositionDistinct(opts, schema, "anyOf", ui);
    var r2 := Composition(opts, schema, "oneOf", r1).value;
    CompositionDistinct(opts, schema, "oneOf", r1);
    CompositionDistinct(opts, schema, "allOf", r2);
  }

  lemma CompositionDistinct(opts: Json, schema: Json, key: string, ui: Ui)
    requires IsComposition(key) && DistinctKeys(ui) && Composition(opts, schema, key, ui).Ok?
    ensures DistinctKeys(Composition(opts, schema, key, ui).value)
  {
    var subs := Get(schema, key);
    if Truthy(subs) {
      PutKeepsDistinct(ui, key, Arr(Collect(SubResults(opts, schema, key)).value));
    }
  }

  lemma AfterTypeDistinct(opts: Json, schema: Json, isRoot: bool, ui1: Ui)
    requires !schema.Undef? && !schema.Null? && DistinctKeys(ui1) && AfterType(opts, schema, isRoot, ui1).Ok?
    ensures DistinctKeys(AfterType(opts, schema, isRoot, ui1).value)
  {
    var ui2 := ApplyCommon(opts, schema, ui1, isRoot);
    ApplyCommonDistinct(opts, schema, ui1, isRoot);
    var ui4 := EnumAndHidden(schema, ui2).value;
    EnumAndHiddenDistinct(schema, ui2);
    var ui5 := Compositions(opts, schema, ui4).value;
    CompositionsDistinct(opts, schema, ui4);
    PutKeepsDistinct(ui5, "ui:fieldType", DetermineFieldType(schema).value);
    PutKeepsDistinct(Put(ui5, "ui:fieldType", DetermineFieldType(schema).value), "ui:emptyValue",
                     Or(Get(schema, "default"), Str("")));
  }

  /** A generated node never holds the same key twice. */
  lemma ProcessSchemaDistinct(opts: Json, schema: Json, isRoot: bool)
    requires ProcessSchema(opts, schema, isRoot).Ok?
    ensures DistinctKeys(ProcessSchema(opts, schema, isRoot).value)
  {
    var ui0 := NodeBase(opts, isRoot).value;
    if isRoot {
      RootDirectivesDistinct(opts);
    }
    TypeStageDistinct(opts, schema, ui0);
    AfterTypeDistinct(opts, schema, isRoot, TypeStage(opts, schema, ui0).value);
  }
}
