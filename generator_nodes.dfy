/** What each step of `processSchema` writes into the node: the common
    properties, the enum and hidden rules, the composition blocks and the
    field type recorded last. */
module GeneratorNodes {
  import opened Wrappers
  import opened Strings
  import opened Json
  import opened FieldType
  import opened Generator
  import opened GeneratorShape

  // ---------------------------------------------------------------- common properties

  /** The title goes either into the bag or onto `ui:title`. */
  lemma TitleSlot(opts: Json)
    ensures OptionSlot(opts, "title") == (if Wrapped(opts) then "ui:options" else "ui:title")
  {
    assert "ui:" + "title" == "ui:title";
  }

  /** The node after the title step: every key other than the title's slot is unchanged. */
  lemma TitleStep(opts: Json, schema: Json, ui: Ui)
    ensures var title := Get(schema, "title");
      var ui1 := if Truthy(title) then AddToUIOptions(opts, ui, "title", title) else ui;
      forall k :: k != OptionSlot(opts, "title") ==> Lookup(ui1, k) == Lookup(ui, k)
  {
    AddToUIOptionsLookup(opts, ui, "title", Get(schema, "title"));
  }

  /** `applyCommonProperties` writes only the title slot, description, readonly, disabled and help. */
  lemma ApplyCommonFrame(opts: Json, schema: Json, ui: Ui, isRoot: bool)
    ensures Keeps(ApplyCommon(opts, schema, ui, isRoot), ui, CommonKeys(opts))
  {
    TitleStep(opts, schema, ui);
  }

  /** A write to a key that is neither the bag nor `ui:<key>` leaves option `key` alone. */
  lemma OptionPut(opts: Json, ui: Ui, k: string, v: Json, key: string)
    requires k != "ui:options" && k != "ui:" + key
    ensures OptionValue(opts, Put(ui, k, v), key) == OptionValue(opts, ui, key)
  {
  }

  /** A truthy title goes to `ui:options.title` when wrapped and to `ui:title` when flattened. */
  lemma ApplyCommonTitle(opts: Json, schema: Json, ui: Ui, isRoot: bool)
    requires Truthy(Get(schema, "title"))
    ensures OptionValue(opts, ApplyCommon(opts, schema, ui, isRoot), "title") == Get(schema, "title")
  {
    var title := Get(schema, "title");
    assert "ui:" + "title" == "ui:title";
    var ui1 := AddToUIOptions(opts, ui, "title", title);
    OptionValueAdd(opts, ui, "title", title, "title");
    var description := Get(schema, "description");
    var ui2 := if Truthy(description) then Put(ui1, "ui:description", description) else ui1;
    OptionPut(opts, ui1, "ui:description", description, "title");
    var ro, dis := Or(Get(schema, "readOnly"), Bool(false)), Or(Get(schema, "disabled"), Bool(false));
    var ro2 := Put(ui2, "ui:readonly", ro);
    OptionPut(opts, ui2, "ui:readonly", ro, "title");
    OptionPut(opts, ro2, "ui:disabled", dis, "title");
    var ui3 := if !isRoot then Put(ro2, "ui:disabled", dis) else ui2;
    var help := Get(schema, "help");
    OptionPut(opts, ui3, "ui:help", help, "title");
    var r := if Truthy(help) then Put(ui3, "ui:help", help) else ui3;
    assert r == ApplyCommon(opts, schema, ui, isRoot);
  }

  /** A truthy description is copied to `ui:description`. */
  lemma ApplyCommonDescription(opts: Json, schema: Json, ui: Ui, isRoot: bool)
    requires Truthy(Get(schema, "description"))
    ensures Lookup(ApplyCommon(opts, schema, ui, isRoot), "ui:description") == Get(schema, "description")
  {
    var title := Get(schema, "title");
    var ui1 := if Truthy(title) then AddToUIOptions(opts, ui, "title", title) else ui;
    var description := Get(schema, "description");
    var ui2 := Put(ui1, "ui:description", description);
    var ro, dis := Or(Get(schema, "readOnly"), Bool(false)), Or(Get(schema, "disabled"), Bool(false));
    var ui3 := if !isRoot then Put(Put(ui2, "ui:readonly", ro), "ui:disabled", dis) else ui2;
    assert Lookup(ui3, "ui:description") == description;
    var help := Get(schema, "help");
    var r := if Truthy(help) then Put(ui3, "ui:help", help) else ui3;
    assert r == ApplyCommon(opts, schema, ui, isRoot);
  }

  /** A truthy help text is copied to `ui:help`. */
  lemma ApplyCommonHelp(opts: Json, schema: Json, ui: Ui, isRoot: bool)
    requires Truthy(Get(schema, "help"))
    ensures Lookup(ApplyCommon(opts, schema, ui, isRoot), "ui:help") == Get(schema, "help")
  {
  }

  /** A key that is neither the bag nor `ui:<key>` is not touched by `addToUIOptions`. */
  lemma AddOther(opts: Json, ui: Ui, key: string, v: Json, k: string)
    requires k != "ui:options" && k != "ui:" + key
    ensures Lookup(AddToUIOptions(opts, ui, key, v), k) == Lookup(ui, k)
  {
  }

  /** The node after the title and description steps agrees with the input on `k`. */
  lemma EarlySteps(opts: Json, schema: Json, ui: Ui, k: string)
    requires k == "ui:readonly" || k == "ui:disabled"
    ensures var title := Get(schema, "title");
      var ui1 := if Truthy(title) then AddToUIOptions(opts, ui, "title", title) else ui;
      var description := Get(schema, "description");
      var ui2 := if Truthy(description) then Put(ui1, "ui:description", description) else ui1;
      Lookup(ui2, k) == Lookup(ui, k)
  {
    assert "ui:" + "title" == "ui:title";
    AddOther(opts, ui, "title", Get(schema, "title"), k);
  }

  lemma AccessKeysDiffer()
    ensures "ui:readonly" != "ui:disabled"
  {
    assert "ui:readonly"[3] != "ui:disabled"[3];
  }

  /** A child node gets `ui:readonly = readOnly || false` and `ui:disabled = disabled || false`. */
  lemma ApplyCommonChild(opts: Json, schema: Json, ui: Ui)
    ensures var r := ApplyCommon(opts, schema, ui, false);
      && Lookup(r, "ui:readonly") == Or(Get(schema, "readOnly"), Bool(false))
      && Lookup(r, "ui:disabled") == Or(Get(schema, "disabled"), Bool(false))
  {
    var title := Get(schema, "title");
    var ui1 := if Truthy(title) then AddToUIOptions(opts, ui, "title", title) else ui;
    var description := Get(schema, "description");
    var ui2 := if Truthy(description) then Put(ui1, "ui:description", description) else ui1;
    var ro, dis := Or(Get(schema, "readOnly"), Bool(false)), Or(Get(schema, "disabled"), Bool(false));
    AccessKeysDiffer();
    var ui3 := Put(Put(ui2, "ui:readonly", ro), "ui:disabled", dis);
    assert Lookup(ui3, "ui:readonly") == ro;
    var help := Get(schema, "help");
    var r := if Truthy(help) then Put(ui3, "ui:help", help) else ui3;
    assert r == ApplyCommon(opts, schema, ui, false);
  }

  /** The root node's `ui:readonly` and `ui:disabled` are left as they were. */
  lemma ApplyCommonRoot(opts: Json, schema: Json, ui: Ui)
    ensures var r := ApplyCommon(opts, schema, ui, true);
      && Lookup(r, "ui:readonly") == Lookup(ui, "ui:readonly")
      && Lookup(r, "ui:disabled") == Lookup(ui, "ui:disabled")
  {
    EarlySteps(opts, schema, ui, "ui:readonly");
    EarlySteps(opts, schema, ui, "ui:disabled");
  }

  // ---------------------------------------------------------------- enum and hidden

  /** The enum and hidden steps write only the enum keys and the widget. */
  lemma EnumAndHiddenFrame(schema: Json, ui: Ui)
    requires EnumAndHidden(schema, ui).Ok?
    ensures Keeps(EnumAndHidden(schema, ui).value, ui, {"ui:enumNames", "ui:widget", "ui:enumDisabled"})
  {
    if Truthy(Get(schema, "enum")) {
      var names := EnumNames(schema).value;
      var ui1 := Put(Put(ui, "ui:enumNames", names), "ui:widget", Str("select"));
      WidgetDefaultsFrame(ui1, Str("select"));
    }
  }

  /** An enum forces the `select` widget and sets `ui:enumNames` and, when
      given, `ui:enumDisabled`; `hidden` then overrides the widget. */
  lemma EnumAndHiddenValues(schema: Json, ui: Ui)
    requires EnumAndHidden(schema, ui).Ok?
    ensures var r := EnumAndHidden(schema, ui).value;
      && (Truthy(Get(schema, "hidden")) ==> Lookup(r, "ui:widget") == Str("hidden"))
      && (!Truthy(Get(schema, "hidden")) && Truthy(Get(schema, "enum")) ==> Lookup(r, "ui:widget") == Str("select"))
      && (!Truthy(Get(schema, "hidden")) && !Truthy(Get(schema, "enum")) ==> Lookup(r, "ui:widget") == Lookup(ui, "ui:widget"))
      && (Truthy(Get(schema, "enum")) ==> Lookup(r, "ui:enumNames") == EnumNames(schema).value)
      && (Truthy(Get(schema, "enum")) && Truthy(Get(schema, "enumDisabled")) ==>
            Lookup(r, "ui:enumDisabled") == Get(schema, "enumDisabled"))
  {
    if Truthy(Get(schema, "enum")) {
      var names := EnumNames(schema).value;
      var ui1 := Put(Put(ui, "ui:enumNames", names), "ui:widget", Str("select"));
      WidgetDefaultsFrame(ui1, Str("select"));
    }
  }

  /** The labels: an explicit `enumNames` array wins; otherwise each string
      value capitalised and every other value "Enum <position from 1>". */
  lemma EnumNamesValues(schema: Json)
    requires EnumNames(schema).Ok?
    ensures var names := Get(schema, "enumNames");
      Truthy(names) && names.Arr? ==> EnumNames(schema).value == names
    ensures var names := Get(schema, "enumNames"); var e := Get(schema, "enum");
      !(Truthy(names) && names.Arr?) ==>
        && e.Arr?
        && var r := EnumNames(schema).value.elems;
        && |r| == |e.elems|
        && forall i :: 0 <= i < |r| ==>
             r[i] == if e.elems[i].Str? then Str(Capitalize(e.elems[i].s)) else Str("Enum " + NatToString(i + 1))
  {
  }

  // ---------------------------------------------------------------- compositions

  /** Each composition block writes only its own keyword. */
  lemma CompositionFrame(opts: Json, schema: Json, key: string, ui: Ui)
    requires IsComposition(key) && Composition(opts, schema, key, ui).Ok?
    ensures Keeps(Composition(opts, schema, key, ui).value, ui, {key})
  {
  }

  lemma CompositionsFrame(opts: Json, schema: Json, ui: Ui)
    requires Compositions(opts, schema, ui).Ok?
    ensures Keeps(Compositions(opts, schema, ui).value, ui, {"anyOf", "oneOf", "allOf"})
  {
    var ui1 := Composition(opts, schema, "anyOf", ui).value;
    var ui2 := Composition(opts, schema, "oneOf", ui1).value;
    CompositionFrame(opts, schema, "anyOf", ui);
    CompositionFrame(opts, schema, "oneOf", ui1);
    CompositionFrame(opts, schema, "allOf", ui2);
  }

  /** A sub-node keeps a truthy title and description of its own and otherwise
      takes the sub-schema's, or "". */
  lemma SubDefaultsValues(sub: Json, subUi: Ui)
    ensures var r := SubDefaults(sub, subUi);
      && Lookup(r, "ui:title") ==
           (if Truthy(Lookup(subUi, "ui:title")) then Lookup(subUi, "ui:title") else Or(Get(sub, "title"), Str("")))
      && Lookup(r, "ui:description") ==
           (if Truthy(Lookup(subUi, "ui:description")) then Lookup(subUi, "ui:description")
            else Or(Get(sub, "description"), Str("")))
  {
  }

  /** A truthy keyword gets the list of its sub-nodes, each with title and description defaults. */
  lemma CompositionValue(opts: Json, schema: Json, key: string, ui: Ui)
    requires IsComposition(key) && Composition(opts, schema, key, ui).Ok? && Truthy(Get(schema, key))
    ensures var subs := Get(schema, key);
      subs.Arr? &&
      var r := Lookup(Composition(opts, schema, key, ui).value, key);
      && r.Arr? && |r.elems| == |subs.elems|
      && forall i :: 0 <= i < |subs.elems| ==> SubNode(opts, schema, key, i) == Ok(r.elems[i])
  {
    var subs := Get(schema, key);
    forall i | 0 <= i < |subs.elems|
      ensures SubNode(opts, schema, key, i) == Ok(Collect(SubResults(opts, schema, key)).value[i])
    {
      CollectAt(SubResults(opts, schema, key), i);
      SubResultAt(opts, schema, key, i);
    }
  }

  /** The node of a sub-schema is its generated node with the title and description defaults. */
  lemma SubNodeValue(opts: Json, schema: Json, key: string, i: nat)
    requires IsComposition(key) && Get(schema, key).Arr? && i < |Get(schema, key).elems|
    requires SubNode(opts, schema, key, i).Ok?
    ensures var sub := Get(schema, key).elems[i];
      ProcessSchema(opts, sub, false).Ok? &&
      SubNode(opts, schema, key, i).value == Obj(SubDefaults(sub, ProcessSchema(opts, sub, false).value))
  {
  }

  // ---------------------------------------------------------------- string fields

  /** Where the flattened options land. */
  lemma FlatSlots()
    ensures "ui:" + "widget" == "ui:widget" && "ui:" + "rows" == "ui:rows"
    ensures "ui:" + "autocomplete" == "ui:autocomplete" && "ui:" + "inputType" == "ui:inputType"
    ensures "ui:" + "placeholder" == "ui:placeholder"
  {
  }

  /** The placeholder prompt: "Enter " and the lower-cased title, or "Enter value". */
  lemma PlaceholderText(schema: Json)
    requires PlaceholderSubject(schema).Ok?
    ensures var title := Get(schema, "title");
      PlaceholderSubject(schema).value ==
        if title.Str? && ToLower(title.s) != "" then ToLower(title.s) else "value"
    ensures PlaceholderSubject(schema).value != ""
  {
  }

  /** A string field gets the placeholder prompt, wherever options go. */
  lemma HandleStringPlaceholder(opts: Json, schema: Json, ui: Ui)
    requires HandleString(opts, schema, ui).Ok?
    ensures OptionValue(opts, HandleString(opts, schema, ui).value, "placeholder") ==
      Str("Enter " + PlaceholderSubject(schema).value)
  {
    var widget := StringWidget(opts, schema).value;
    var ui1 := Put(ui, "ui:widget", widget);
    var ui2 := if Get(schema, "format") == Str("data-url")
               then ApplyWidgetDefaults(Put(ui1, "ui:widget", Str("file")), Str("file"))
               else ui1;
    var ui3 := ApplyWidgetDefaults(ui2, Lookup(ui2, "ui:widget"));
    var ui4 := if widget == Str("textarea") then TextareaOptions(opts, schema, ui3) else ui3;
    var inputType := Get(schema, "inputType");
    var ui5 := if Truthy(inputType) then AddToUIOptions(opts, ui4, "inputType", inputType) else ui4;
    var v := Str("Enter " + PlaceholderSubject(schema).value);
    var ui6 := AddToUIOptions(opts, ui5, "placeholder", v);
    OptionValueAdd(opts, ui5, "placeholder", v, "placeholder");
    FlatSlots();
    var af := Or(Get(schema, "autofocus"), Bool(false));
    OptionPut(opts, ui6, "ui:autofocus", af, "placeholder");
    assert HandleString(opts, schema, ui).value == Put(ui6, "ui:autofocus", af);
  }

  /** The widget a string field ends with: the format's or the string default,
      `file` for a `data-url` format, except that a flattened textarea option
      overwrites it with `textarea`. */
  lemma HandleStringWidget(opts: Json, schema: Json, ui: Ui)
    requires HandleString(opts, schema, ui).Ok?
    ensures var widget := StringWidget(opts, schema).value;
      Lookup(HandleString(opts, schema, ui).value, "ui:widget") ==
        if widget == Str("textarea") && !Wrapped(opts) then Str("textarea")
        else if Get(schema, "format") == Str("data-url") then Str("file")
        else widget
  {
    var widget := StringWidget(opts, schema).value;
    var ui1 := Put(ui, "ui:widget", widget);
    var ui2 := if Get(schema, "format") == Str("data-url")
               then ApplyWidgetDefaults(Put(ui1, "ui:widget", Str("file")), Str("file"))
               else ui1;
    EarlyWidget(schema, ui1, widget);
    var ui3 := ApplyWidgetDefaults(ui2, Lookup(ui2, "ui:widget"));
    DefaultsKeepWidget(ui2, Lookup(ui2, "ui:widget"));
    var ui4 := if widget == Str("textarea") then TextareaOptions(opts, schema, ui3) else ui3;
    TextareaWidget(opts, schema, ui3);
    var inputType := Get(schema, "inputType");
    var v := Str("Enter " + PlaceholderSubject(schema).value);
    var af := Or(Get(schema, "autofocus"), Bool(false));
    LateWidgetKept(opts, ui4, inputType, v, af);
    var ui5 := if Truthy(inputType) then AddToUIOptions(opts, ui4, "inputType", inputType) else ui4;
    var ui6 := AddToUIOptions(opts, ui5, "placeholder", v);
    var r := Put(ui6, "ui:autofocus", af);
    assert HandleString(opts, schema, ui).value == r;
    assert Lookup(r, "ui:widget") == Lookup(ui4, "ui:widget");
  }

  /** Widget defaults never touch the widget itself. */
  lemma DefaultsKeepWidget(ui: Ui, widget: Json)
    ensures Lookup(ApplyWidgetDefaults(ui, widget), "ui:widget") == Lookup(ui, "ui:widget")
  {
    WidgetDefaultsFrame(ui, widget);
  }

  /** After the `data-url` rule the widget is `file` or the one chosen first. */
  lemma EarlyWidget(schema: Json, ui1: Ui, widget: Json)
    requires Lookup(ui1, "ui:widget") == widget
    ensures var ui2 := if Get(schema, "format") == Str("data-url")
               then ApplyWidgetDefaults(Put(ui1, "ui:widget", Str("file")), Str("file"))
               else ui1;
      Lookup(ui2, "ui:widget") == if Get(schema, "format") == Str("data-url") then Str("file") else widget
  {
    DefaultsKeepWidget(Put(ui1, "ui:widget", Str("file")), Str("file"));
  }

  /** The textarea options move the widget only when flattened. */
  lemma TextareaWidget(opts: Json, schema: Json, ui: Ui)
    ensures Lookup(TextareaOptions(opts, schema, ui), "ui:widget") ==
      if Wrapped(opts) then Lookup(ui, "ui:widget") else Str("textarea")
  {
    var t1 := AddToUIOptions(opts, ui, "widget", Str("textarea"));
    if Wrapped(opts) {
      TextareaWrapped(opts, schema, ui);
    } else {
      WidgetSlot();
      TextareaTail(opts, schema, t1);
    }
  }

  lemma WidgetSlot()
    ensures "ui:" + "widget" == "ui:widget"
  {
  }

  /** Wrapped, every textarea option goes into the bag. */
  lemma TextareaWrapped(opts: Json, schema: Json, ui: Ui)
    requires Wrapped(opts)
    ensures Lookup(TextareaOptions(opts, schema, ui), "ui:widget") == Lookup(ui, "ui:widget")
  {
    assert |"ui:widget"| != |"ui:options"|;
    var t1 := AddToUIOptions(opts, ui, "widget", Str("textarea"));
    var t2 := AddToUIOptions(opts, t1, "autocomplete", Str("on"));
    WrappedOther(opts, ui, "widget", Str("textarea"), "ui:widget");
    WrappedOther(opts, t1, "autocomplete", Str("on"), "ui:widget");
    WrappedOther(opts, t2, "rows", TextareaRows(schema), "ui:widget");
  }

  /** Wrapped, `addToUIOptions` changes nothing but the bag. */
  lemma WrappedOther(opts: Json, ui: Ui, key: string, v: Json, k: string)
    requires Wrapped(opts) && k != "ui:options"
    ensures Lookup(AddToUIOptions(opts, ui, key, v), k) == Lookup(ui, k)
  {
  }

  /** The autocomplete and rows options leave the widget alone. */
  lemma TextareaTail(opts: Json, schema: Json, t1: Ui)
    ensures var t2 := AddToUIOptions(opts, t1, "autocomplete", Str("on"));
      Lookup(AddToUIOptions(opts, t2, "rows", TextareaRows(schema)), "ui:widget") == Lookup(t1, "ui:widget")
  {
    var t2 := AddToUIOptions(opts, t1, "autocomplete", Str("on"));
    AddOther(opts, t1, "autocomplete", Str("on"), "ui:widget");
    AddOther(opts, t2, "rows", TextareaRows(schema), "ui:widget");
  }

  /** The input type, placeholder and autofocus steps keep the widget. */
  lemma LateWidgetKept(opts: Json, ui: Ui, inputType: Json, v: Json, af: Json)
    ensures var ui5 := if Truthy(inputType) then AddToUIOptions(opts, ui, "inputType", inputType) else ui;
      var ui6 := AddToUIOptions(opts, ui5, "placeholder", v);
      Lookup(Put(ui6, "ui:autofocus", af), "ui:widget") == Lookup(ui, "ui:widget")
  {
    FlatSlots();
    var ui5 := if Truthy(inputType) then AddToUIOptions(opts, ui, "inputType", inputType) else ui;
    AddOther(opts, ui, "inputType", inputType, "ui:widget");
    AddOther(opts, ui5, "placeholder", v, "ui:widget");
  }

  /** A textarea gets the widget, `autocomplete: "on"` and its rows as options. */
  lemma HandleStringTextarea(opts: Json, schema: Json, ui: Ui)
    requires HandleString(opts, schema, ui).Ok? && StringWidget(opts, schema).value == Str("textarea")
    ensures var r := HandleString(opts, schema, ui).value;
      && OptionValue(opts, r, "widget") == Str("textarea")
      && OptionValue(opts, r, "autocomplete") == Str("on")
      && OptionValue(opts, r, "rows") == TextareaRows(schema)
  {
    FlatSlots();
    var widget := StringWidget(opts, schema).value;
    var ui1 := Put(ui, "ui:widget", widget);
    var ui2 := if Get(schema, "format") == Str("data-url")
               then ApplyWidgetDefaults(Put(ui1, "ui:widget", Str("file")), Str("file"))
               else ui1;
    var ui3 := ApplyWidgetDefaults(ui2, Lookup(ui2, "ui:widget"));
    var rows := TextareaRows(schema);
    var t1 := AddToUIOptions(opts, ui3, "widget", Str("textarea"));
    var t2 := AddToUIOptions(opts, t1, "autocomplete", Str("on"));
    var ui4 := AddToUIOptions(opts, t2, "rows", rows);
    TextareaOptionValues(opts, ui3, rows);
    var inputType := Get(schema, "inputType");
    var ui5 := if Truthy(inputType) then AddToUIOptions(opts, ui4, "inputType", inputType) else ui4;
    var v := Str("Enter " + PlaceholderSubject(schema).value);
    var ui6 := AddToUIOptions(opts, ui5, "placeholder", v);
    var af := Or(Get(schema, "autofocus"), Bool(false));
    LateOptionsKept(opts, ui4, inputType, v, af, "widget");
    LateOptionsKept(opts, ui4, inputType, v, af, "autocomplete");
    LateOptionsKept(opts, ui4, inputType, v, af, "rows");
    assert HandleString(opts, schema, ui).value == Put(ui6, "ui:autofocus", af);
  }

  /** The three textarea options as `handleTextareaOptions` adds them. */
  lemma TextareaOptionValues(opts: Json, ui: Ui, rows: Json)
    ensures var t1 := AddToUIOptions(opts, ui, "widget", Str("textarea"));
      var t2 := AddToUIOptions(opts, t1, "autocomplete", Str("on"));
      var t3 := AddToUIOptions(opts, t2, "rows", rows);
      && OptionValue(opts, t3, "widget") == Str("textarea")
      && OptionValue(opts, t3, "autocomplete") == Str("on")
      && OptionValue(opts, t3, "rows") == rows
  {
    var t1 := AddToUIOptions(opts, ui, "widget", Str("textarea"));
    var t2 := AddToUIOptions(opts, t1, "autocomplete", Str("on"));
    OptionValueAdd(opts, ui, "widget", Str("textarea"), "widget");
    OptionValueAdd(opts, t1, "autocomplete", Str("on"), "widget");
    OptionValueAdd(opts, t1, "autocomplete", Str("on"), "autocomplete");
    OptionValueAdd(opts, t2, "rows", rows, "widget");
    OptionValueAdd(opts, t2, "rows", rows, "autocomplete");
    OptionValueAdd(opts, t2, "rows", rows, "rows");
  }

  /** The input type, placeholder and autofocus steps keep the textarea options. */
  lemma LateOptionsKept(opts: Json, ui: Ui, inputType: Json, v: Json, af: Json, key: string)
    requires key == "widget" || key == "autocomplete" || key == "rows"
    ensures var ui5 := if Truthy(inputType) then AddToUIOptions(opts, ui, "inputType", inputType) else ui;
      var ui6 := AddToUIOptions(opts, ui5, "placeholder", v);
      OptionValue(opts, Put(ui6, "ui:autofocus", af), key) == OptionValue(opts, ui, key)
  {
    var ui5 := if Truthy(inputType) then AddToUIOptions(opts, ui, "inputType", inputType) else ui;
    OptionValueAdd(opts, ui, "inputType", inputType, key);
    OptionValueAdd(opts, ui5, "placeholder", v, key);
    OptionPut(opts, AddToUIOptions(opts, ui5, "placeholder", v), "ui:autofocus", af, key);
  }

  /** A truthy `inputType` becomes an option. */
  lemma HandleStringInputType(opts: Json, schema: Json, ui: Ui)
    requires HandleString(opts, schema, ui).Ok? && Truthy(Get(schema, "inputType"))
    ensures OptionValue(opts, HandleString(opts, schema, ui).value, "inputType") == Get(schema, "inputType")
  {
    FlatSlots();
    var widget := StringWidget(opts, schema).value;
    var ui1 := Put(ui, "ui:widget", widget);
    var ui2 := if Get(schema, "format") == Str("data-url")
               then ApplyWidgetDefaults(Put(ui1, "ui:widget", Str("file")), Str("file"))
               else ui1;
    var ui3 := ApplyWidgetDefaults(ui2, Lookup(ui2, "ui:widget"));
    var ui4 := if widget == Str("textarea") then TextareaOptions(opts, schema, ui3) else ui3;
    var inputType := Get(schema, "inputType");
    var ui5 := AddToUIOptions(opts, ui4, "inputType", inputType);
    OptionValueAdd(opts, ui4, "inputType", inputType, "inputType");
    var v := Str("Enter " + PlaceholderSubject(schema).value);
    var ui6 := AddToUIOptions(opts, ui5, "placeholder", v);
    OptionValueAdd(opts, ui5, "placeholder", v, "inputType");
    var af := Or(Get(schema, "autofocus"), Bool(false));
    OptionPut(opts, ui6, "ui:autofocus", af, "inputType");
    assert HandleString(opts, schema, ui).value == Put(ui6, "ui:autofocus", af);
  }

  /** `ui:autofocus` is the schema's `autofocus`, or false. */
  lemma HandleStringAutofocus(opts: Json, schema: Json, ui: Ui)
    requires HandleString(opts, schema, ui).Ok?
    ensures Lookup(HandleString(opts, schema, ui).value, "ui:autofocus") == Or(Get(schema, "autofocus"), Bool(false))
  {
  }

  // ---------------------------------------------------------------- field type

  /** A node that ends with a truthy widget records the classifier's result and
      `schema.default || ""`; apart from those two keys the node is unchanged. */
  lemma FinishValues(schema: Json, ui: Ui)
    requires !schema.Undef? && !schema.Null?
    ensures var r := Finish(schema, ui);
      && Keeps(r, ui, {"ui:fieldType", "ui:emptyValue"})
      && (Truthy(Lookup(ui, "ui:widget")) ==>
            && Lookup(r, "ui:fieldType") == DetermineFieldType(schema).value
            && Lookup(r, "ui:emptyValue") == Or(Get(schema, "default"), Str("")))
      && (!Truthy(Lookup(ui, "ui:widget")) ==> r == ui)
  {
  }

  // ---------------------------------------------------------------- after the type switch

  /** The widget a node ends with: `hidden` wins, an enum forces `select`, and
      otherwise the widget chosen by the type switch stays. */
  lemma AfterTypeWidget(opts: Json, schema: Json, isRoot: bool, ui1: Ui)
    requires !schema.Undef? && !schema.Null? && AfterType(opts, schema, isRoot, ui1).Ok?
    ensures var w := Lookup(AfterType(opts, schema, isRoot, ui1).value, "ui:widget");
      && (Truthy(Get(schema, "hidden")) ==> w == Str("hidden"))
      && (!Truthy(Get(schema, "hidden")) && Truthy(Get(schema, "enum")) ==> w == Str("select"))
      && (!Truthy(Get(schema, "hidden")) && !Truthy(Get(schema, "enum")) ==> w == Lookup(ui1, "ui:widget"))
  {
    var ui2 := ApplyCommon(opts, schema, ui1, isRoot);
    CommonKeepsWidget(opts, schema, ui1, isRoot);
    var ui4 := EnumAndHidden(schema, ui2).value;
    EnumAndHiddenValues(schema, ui2);
    var ui5 := Compositions(opts, schema, ui4).value;
    CompositionsKeepWidget(opts, schema, ui4);
    FinishKeepsWidget(schema, ui5);
  }

  lemma CommonKeepsWidget(opts: Json, schema: Json, ui: Ui, isRoot: bool)
    ensures Lookup(ApplyCommon(opts, schema, ui, isRoot), "ui:widget") == Lookup(ui, "ui:widget")
  {
    ApplyCommonFrame(opts, schema, ui, isRoot);
    TitleSlot(opts);
  }

  lemma CompositionsKeepWidget(opts: Json, schema: Json, ui: Ui)
    requires Compositions(opts, schema, ui).Ok?
    ensures Lookup(Compositions(opts, schema, ui).value, "ui:widget") == Lookup(ui, "ui:widget")
  {
    CompositionsFrame(opts, schema, ui);
  }

  lemma FinishKeepsWidget(schema: Json, ui: Ui)
    requires !schema.Undef? && !schema.Null?
    ensures Lookup(Finish(schema, ui), "ui:widget") == Lookup(ui, "ui:widget")
  {
    FinishValues(schema, ui);
  }

  /** A node whose final widget is truthy records the classifier's field type
      and `default || ""` as its empty value. */
  lemma AfterTypeFieldType(opts: Json, schema: Json, isRoot: bool, ui1: Ui)
    requires !schema.Undef? && !schema.Null? && AfterType(opts, schema, isRoot, ui1).Ok?
    ensures var r := AfterType(opts, schema, isRoot, ui1).value;
      Truthy(Lookup(r, "ui:widget")) ==>
        && Lookup(r, "ui:fieldType") == DetermineFieldType(schema).value
        && Lookup(r, "ui:emptyValue") == Or(Get(schema, "default"), Str(""))
  {
    var ui2 := ApplyCommon(opts, schema, ui1, isRoot);
    var ui4 := EnumAndHidden(schema, ui2).value;
    var ui5 := Compositions(opts, schema, ui4).value;
    FinishValues(schema, ui5);
    FinishKeepsWidget(schema, ui5);
  }

  /** `processSchema` is the node base, the type switch, then the rest. */
  lemma ProcessSchemaParts(opts: Json, schema: Json, isRoot: bool)
    requires ProcessSchema(opts, schema, isRoot).Ok?
    ensures NodeBase(opts, isRoot).Ok? && !schema.Undef? && !schema.Null?
    ensures TypeStage(opts, schema, NodeBase(opts, isRoot).value).Ok?
    ensures var ui1 := TypeStage(opts, schema, NodeBase(opts, isRoot).value).value;
      AfterType(opts, schema, isRoot, ui1) == ProcessSchema(opts, schema, isRoot)
  {
  }

  /** Every generated node: `hidden` wins, an enum forces `select`, and a node
      with a truthy widget records its field type. */
  lemma NodeWidget(opts: Json, schema: Json, isRoot: bool)
    requires ProcessSchema(opts, schema, isRoot).Ok?
    ensures var r := ProcessSchema(opts, schema, isRoot).value;
      && (Truthy(Get(schema, "hidden")) ==> Lookup(r, "ui:widget") == Str("hidden"))
      && (!Truthy(Get(schema, "hidden")) && Truthy(Get(schema, "enum")) ==> Lookup(r, "ui:widget") == Str("select"))
      && (Truthy(Lookup(r, "ui:widget")) ==> Lookup(r, "ui:fieldType") == DetermineFieldType(schema).value)
  {
    ProcessSchemaParts(opts, schema, isRoot);
    var ui1 := TypeStage(opts, schema, NodeBase(opts, isRoot).value).value;
    AfterTypeWidget(opts, schema, isRoot, ui1);
    AfterTypeFieldType(opts, schema, isRoot, ui1);
  }

  // ---------------------------------------------------------------- array fields

  lemma ArraySlots()
    ensures "ui:" + "arrayOptions" == "ui:arrayOptions" && "ui:" + "filePreview" == "ui:filePreview"
  {
  }

  /** `items` is neither of the slots the array options can take. */
  lemma ItemsSlotFree()
    ensures "items" != "ui:options" && "items" != "ui:arrayOptions" && "items" != "ui:filePreview"
  {
    assert |"items"| != |"ui:options"| && |"items"| != |"ui:arrayOptions"| && |"items"| != |"ui:filePreview"|;
  }

  /** A non-enum items schema's node is nested under `items`. */
  lemma HandleArrayItems(opts: Json, schema: Json, ui: Ui)
    requires HandleArray(opts, schema, ui).Ok?
    requires Truthy(Get(schema, "items")) && !Truthy(Get(Get(schema, "items"), "enum"))
    ensures ProcessSchema(opts, Get(schema, "items"), false).Ok?
    ensures Lookup(HandleArray(opts, schema, ui).value, "items") == Obj(ProcessSchema(opts, Get(schema, "items"), false).value)
  {
    var ui1 := AddToUIOptions(opts, ui, "arrayOptions", ArrayOptions);
    var ui2 := ArrayItems(opts, schema, ui1).value;
    ArraySlots();
    ItemsSlotFree();
    AddOther(opts, ui2, "filePreview", Bool(true), "items");
  }

  /** The array options are all on, unless a merged enum items node replaces them. */
  lemma HandleArrayOptions(opts: Json, schema: Json, ui: Ui)
    requires HandleArray(opts, schema, ui).Ok?
    requires !(Truthy(Get(schema, "items")) && Truthy(Get(Get(schema, "items"), "enum")))
    ensures OptionValue(opts, HandleArray(opts, schema, ui).value, "arrayOptions") == ArrayOptions
  {
    var ui1 := AddToUIOptions(opts, ui, "arrayOptions", ArrayOptions);
    OptionValueAdd(opts, ui, "arrayOptions", ArrayOptions, "arrayOptions");
    var ui2 := ArrayItems(opts, schema, ui1).value;
    var items := Get(schema, "items");
    if Truthy(items) {
      ArraySlots();
      ItemsSlotFree();
      OptionPut(opts, ui1, "items", Obj(ProcessSchema(opts, items, false).value), "arrayOptions");
    }
    assert |"arrayOptions"| != |"filePreview"|;
    OptionValueAdd(opts, ui2, "filePreview", Bool(true), "arrayOptions");
  }

  /** A truthy `filePreview` turns the file-preview option on. */
  lemma HandleArrayFilePreview(opts: Json, schema: Json, ui: Ui)
    requires HandleArray(opts, schema, ui).Ok? && Truthy(Get(schema, "filePreview"))
    ensures OptionValue(opts, HandleArray(opts, schema, ui).value, "filePreview") == Bool(true)
  {
    var ui2 := ArrayItems(opts, schema, AddToUIOptions(opts, ui, "arrayOptions", ArrayOptions)).value;
    OptionValueAdd(opts, ui2, "filePreview", Bool(true), "filePreview");
  }

  /** An enum items schema's node is merged into the array node: each of its
      keys carries the items node's value, except the two option slots the
      file-preview step may write afterwards. */
  lemma HandleArrayEnumItems(opts: Json, schema: Json, ui: Ui, k: string)
    requires HandleArray(opts, schema, ui).Ok?
    requires Truthy(Get(schema, "items")) && Truthy(Get(Get(schema, "items"), "enum"))
    requires ProcessSchema(opts, Get(schema, "items"), false).Ok?
    requires k in KeysOf(ProcessSchema(opts, Get(schema, "items"), false).value)
    requires k != "ui:options" && k != "ui:filePreview"
    ensures Lookup(HandleArray(opts, schema, ui).value, k) == Lookup(ProcessSchema(opts, Get(schema, "items"), false).value, k)
  {
    var items := Get(schema, "items");
    var itemsUi := ProcessSchema(opts, items, false).value;
    var ui1 := AddToUIOptions(opts, ui, "arrayOptions", ArrayOptions);
    ProcessSchemaDistinct(opts, items, false);
    PutAllLookup(ui1, itemsUi, k);
    ArraySlots();
    AddOther(opts, PutAll(ui1, itemsUi), "filePreview", Bool(true), k);
  }

  // ---------------------------------------------------------------- object fields

  /** Writing the children leaves every key that is not a property key alone. */
  lemma {:induction false} PutChildrenFrame(base: Ui, es: Fields, children: seq<Ui>, k: string)
    requires |children| <= |es| && k !in KeysOf(es)
    ensures Lookup(PutChildren(base, es, children), k) == Lookup(base, k)
    decreases |children|
  {
    if children != [] {
      KeysOfIndex(es, |children| - 1);
      PutChildrenFrame(base, es, children[..|children| - 1], k);
    }
  }

  /** With distinct property keys, property `i` ends up holding its own child. */
  lemma {:induction false} PutChildrenChild(base: Ui, es: Fields, children: seq<Ui>, i: nat)
    requires i < |children| <= |es| && DistinctKeys(es)
    ensures Lookup(PutChildren(base, es, children), es[i].0) == Obj(children[i])
    decreases |children|
  {
    var n := |children|;
    if i < n - 1 {
      PutChildrenChild(base, es, children[..n - 1], i);
    }
  }

  /** The two slots the separator option can take differ from `ui:order`. */
  lemma OrderSlotFree()
    ensures "ui:order" != "ui:options" && "ui:order" != "ui:duplicateKeySuffixSeparator"
  {
    assert |"ui:order"| != |"ui:options"|;
    assert |"ui:order"| != |"ui:duplicateKeySuffixSeparator"|;
  }

  /** The object step is the property loop, then the separator option when
      `additionalProperties` is truthy. */
  lemma ObjectParts(opts: Json, schema: Json, ui: Ui)
    requires HandleObject(opts, schema, ui).Ok? && Truthy(Get(schema, "properties"))
    ensures var props := Get(schema, "properties");
      Collect(PropertyResults(opts, schema)).Ok? &&
      var ui1 := PutChildren(Put(ui, "ui:order", StrArray(Keys(props))), Entries(props),
                             Collect(PropertyResults(opts, schema)).value);
      HandleObject(opts, schema, ui).value ==
        if Truthy(Get(schema, "additionalProperties"))
        then AddToUIOptions(opts, ui1, "duplicateKeySuffixSeparator", Or(Get(schema, "duplicateKeySuffixSeparator"), Str("-")))
        else ui1
  {
  }

  lemma SeparatorSlot()
    ensures "ui:" + "duplicateKeySuffixSeparator" == "ui:duplicateKeySuffixSeparator"
  {
  }

  /** An object node lists its property keys in declared order under
      `ui:order`, unless a property is itself named `ui:order`. */
  lemma HandleObjectOrder(opts: Json, schema: Json, ui: Ui)
    requires HandleObject(opts, schema, ui).Ok? && Truthy(Get(schema, "properties"))
    requires "ui:order" !in Keys(Get(schema, "properties"))
    ensures Lookup(HandleObject(opts, schema, ui).value, "ui:order") == StrArray(Keys(Get(schema, "properties")))
  {
    var props := Get(schema, "properties");
    var es := Entries(props);
    ObjectParts(opts, schema, ui);
    var children := Collect(PropertyResults(opts, schema)).value;
    var base := Put(ui, "ui:order", StrArray(Keys(props)));
    var ui1 := PutChildren(base, es, children);
    OrderSlotFree();
    PutChildrenFrame(base, es, children, "ui:order");
    AddOther(opts, ui1, "duplicateKeySuffixSeparator", Or(Get(schema, "duplicateKeySuffixSeparator"), Str("-")), "ui:order");
  }

  /** With distinct property keys, each property holds its own generated
      node, unless its key is one of the separator option's slots. */
  lemma HandleObjectChild(opts: Json, schema: Json, ui: Ui, i: nat)
    requires HandleObject(opts, schema, ui).Ok? && Truthy(Get(schema, "properties"))
    requires var es := Entries(Get(schema, "properties"));
      DistinctKeys(es) && i < |es| && es[i].0 != "ui:options" && es[i].0 != "ui:duplicateKeySuffixSeparator"
    ensures PropertyNode(opts, schema, i).Ok?
    ensures Lookup(HandleObject(opts, schema, ui).value, Entries(Get(schema, "properties"))[i].0) ==
      Obj(PropertyNode(opts, schema, i).value)
  {
    var props := Get(schema, "properties");
    var es := Entries(props);
    ObjectParts(opts, schema, ui);
    var children := Collect(PropertyResults(opts, schema)).value;
    var base := Put(ui, "ui:order", StrArray(Keys(props)));
    var ui1 := PutChildren(base, es, children);
    CollectAt(PropertyResults(opts, schema), i);
    PropertyResultAt(opts, schema, i);
    PutChildrenChild(base, es, children, i);
    SeparatorSlot();
    AddOther(opts, ui1, "duplicateKeySuffixSeparator", Or(Get(schema, "duplicateKeySuffixSeparator"), Str("-")), es[i].0);
  }

  /** With `additionalProperties`, the node records the duplicate-key
      separator, `-` unless the schema gives one. */
  lemma HandleObjectSeparator(opts: Json, schema: Json, ui: Ui)
    requires HandleObject(opts, schema, ui).Ok? && Truthy(Get(schema, "additionalProperties"))
    ensures OptionValue(opts, HandleObject(opts, schema, ui).value, "duplicateKeySuffixSeparator") ==
      Or(Get(schema, "duplicateKeySuffixSeparator"), Str("-"))
  {
    var ui1 := ObjectProperties(opts, schema, ui).value;
    OptionValueAdd(opts, ui1, "duplicateKeySuffixSeparator", Or(Get(schema, "duplicateKeySuffixSeparator"), Str("-")),
                   "duplicateKeySuffixSeparator");
  }

  // ---------------------------------------------------------------- whole nodes

  /** The steps after the type switch leave every key outside the common and late keys alone. */
  lemma AfterTypeKeeps(opts: Json, schema: Json, isRoot: bool, ui1: Ui, k: string)
    requires !schema.Undef? && !schema.Null? && AfterType(opts, schema, isRoot, ui1).Ok?
    requires k !in CommonKeys(opts) && k !in LateKeys
    ensures Lookup(AfterType(opts, schema, isRoot, ui1).value, k) == Lookup(ui1, k)
  {
    var ui2 := ApplyCommon(opts, schema, ui1, isRoot);
    ApplyCommonFrame(opts, schema, ui1, isRoot);
    var ui4 := EnumAndHidden(schema, ui2).value;
    EnumAndHiddenFrame(schema, ui2);
    var ui5 := Compositions(opts, schema, ui4).value;
    CompositionsFrame(opts, schema, ui4);
    FinishValues(schema, ui5);
  }

  /** A `ui:` directive key. */
  predicate Directive(k: string) {
    |k| >= 3 && k[..3] == "ui:"
  }

  /** A key that is neither a directive nor a composition keyword is a key no step but the property loop writes. */
  lemma PlainKeyFree(opts: Json, k: string)
    requires !Directive(k) && !IsComposition(k)
    ensures k !in CommonKeys(opts) && k !in LateKeys
    ensures k != "ui:options" && k != "ui:duplicateKeySuffixSeparator"
  {
    TitleSlot(opts);
  }

  /** `ui:order` is neither a common nor a late key. */
  lemma OrderKeyFree(opts: Json)
    ensures "ui:order" !in CommonKeys(opts) && "ui:order" !in LateKeys
  {
    TitleSlot(opts);
    assert "ui:order"[3] != "ui:title"[3];
    assert |"ui:order"| != |"ui:options"| && |"ui:order"| != |"ui:description"| && |"ui:order"| != |"ui:readonly"|;
    assert |"ui:order"| != |"ui:disabled"| && |"ui:order"| != |"ui:help"|;
    assert |"ui:order"| != |"ui:enumNames"| && |"ui:order"| != |"ui:widget"| && |"ui:order"| != |"ui:enumDisabled"|;
    assert |"ui:order"| != |"anyOf"| && |"ui:order"| != |"ui:fieldType"| && |"ui:order"| != |"ui:emptyValue"|;
  }

  /** An object node's type step is the object handler. */
  lemma ObjectNode(opts: Json, schema: Json, isRoot: bool)
    requires ProcessSchema(opts, schema, isRoot).Ok? && EffectiveType(schema) == Str("object")
    ensures NodeBase(opts, isRoot).Ok? && !schema.Undef? && !schema.Null?
    ensures HandleObject(opts, schema, NodeBase(opts, isRoot).value).Ok?
    ensures AfterType(opts, schema, isRoot, HandleObject(opts, schema, NodeBase(opts, isRoot).value).value) ==
      ProcessSchema(opts, schema, isRoot)
  {
    ProcessSchemaParts(opts, schema, isRoot);
    ObjectStage(opts, schema, NodeBase(opts, isRoot).value);
  }

  lemma ObjectStage(opts: Json, schema: Json, ui: Ui)
    requires EffectiveType(schema) == Str("object")
    ensures TypeStage(opts, schema, ui) == HandleObject(opts, schema, ui)
  {
    TypeNamesDiffer();
  }

  /** A generated object node lists the property keys in declared order under `ui:order`. */
  lemma NodeOrder(opts: Json, schema: Json, isRoot: bool)
    requires ProcessSchema(opts, schema, isRoot).Ok? && EffectiveType(schema) == Str("object")
    requires Truthy(Get(schema, "properties")) && "ui:order" !in Keys(Get(schema, "properties"))
    ensures Lookup(ProcessSchema(opts, schema, isRoot).value, "ui:order") == StrArray(Keys(Get(schema, "properties")))
  {
    ObjectNode(opts, schema, isRoot);
    var ui0 := NodeBase(opts, isRoot).value;
    HandleObjectOrder(opts, schema, ui0);
    OrderKeyFree(opts);
    AfterTypeKeeps(opts, schema, isRoot, HandleObject(opts, schema, ui0).value, "ui:order");
  }

  /** In a generated object node, a property whose key is not a directive or a
      composition keyword holds that property's own generated node. */
  lemma NodeProperty(opts: Json, schema: Json, isRoot: bool, i: nat)
    requires ProcessSchema(opts, schema, isRoot).Ok? && EffectiveType(schema) == Str("object")
    requires Truthy(Get(schema, "properties"))
    requires var es := Entries(Get(schema, "properties"));
      DistinctKeys(es) && i < |es| && !Directive(es[i].0) && !IsComposition(es[i].0)
    ensures PropertyNode(opts, schema, i).Ok?
    ensures Lookup(ProcessSchema(opts, schema, isRoot).value, Entries(Get(schema, "properties"))[i].0) ==
      Obj(PropertyNode(opts, schema, i).value)
  {
    var k := Entries(Get(schema, "properties"))[i].0;
    ObjectNode(opts, schema, isRoot);
    var ui0 := NodeBase(opts, isRoot).value;
    PlainKeyFree(opts, k);
    HandleObjectChild(opts, schema, ui0, i);
    AfterTypeKeeps(opts, schema, isRoot, HandleObject(opts, schema, ui0).value, k);
  }

  // ---------------------------------------------------------------- read-only and disabled

  /** The steps after `applyCommonProperties` leave a key outside the late keys alone. */
  lemma LateKeep(opts: Json, schema: Json, ui2: Ui, k: string)
    requires !schema.Undef? && !schema.Null? && EnumAndHidden(schema, ui2).Ok?
    requires Compositions(opts, schema, EnumAndHidden(schema, ui2).value).Ok? && k !in LateKeys
    ensures Lookup(Finish(schema, Compositions(opts, schema, EnumAndHidden(schema, ui2).value).value), k) == Lookup(ui2, k)
  {
    var ui4 := EnumAndHidden(schema, ui2).value;
    EnumAndHiddenFrame(schema, ui2);
    CompositionsFrame(opts, schema, ui4);
    FinishValues(schema, Compositions(opts, schema, ui4).value);
  }

  lemma AccessNotLate()
    ensures "ui:readonly" !in LateKeys && "ui:disabled" !in LateKeys
  {
    assert |"ui:readonly"| == 11 && |"ui:disabled"| == 11;
    assert |"ui:enumNames"| != 11 && |"ui:widget"| != 11 && |"ui:enumDisabled"| != 11;
    assert |"anyOf"| != 11 && |"ui:fieldType"| != 11 && |"ui:emptyValue"| != 11;
  }

  lemma AccessNotDefault()
    ensures "ui:readonly" !in DefaultKeys && "ui:disabled" !in DefaultKeys
  {
    assert |"ui:readonly"| == 11 && |"ui:disabled"| == 11;
    assert |"ui:rows"| != 11 && |"ui:autocomplete"| != 11 && |"ui:filePreview"| != 11;
    assert |"ui:accept"| != 11 && |"ui:inputType"| != 11;
  }

  /** Every non-root node ends with boolean-or-given `ui:readonly` and `ui:disabled`. */
  lemma NodeAccess(opts: Json, schema: Json)
    requires ProcessSchema(opts, schema, false).Ok?
    ensures var r := ProcessSchema(opts, schema, false).value;
      && Lookup(r, "ui:readonly") == Or(Get(schema, "readOnly"), Bool(false))
      && Lookup(r, "ui:disabled") == Or(Get(schema, "disabled"), Bool(false))
  {
    ProcessSchemaParts(opts, schema, false);
    var ui1 := TypeStage(opts, schema, NodeBase(opts, false).value).value;
    var ui2 := ApplyCommon(opts, schema, ui1, false);
    ApplyCommonChild(opts, schema, ui1);
    AccessNotLate();
    LateKeep(opts, schema, ui2, "ui:readonly");
    LateKeep(opts, schema, ui2, "ui:disabled");
  }

  /** The keys a string node's type step writes are all of another length than
      `ui:readonly` and `ui:disabled`, so it leaves both alone. */
  lemma StringStageKeeps(opts: Json, schema: Json, ui: Ui, k: string)
    requires HandleString(opts, schema, ui).Ok? && (k == "ui:readonly" || k == "ui:disabled")
    ensures Lookup(HandleString(opts, schema, ui).value, k) == Lookup(ui, k)
  {
    var widget := StringWidget(opts, schema).value;
    var ui1 := Put(ui, "ui:widget", widget);
    var ui2 := if Get(schema, "format") == Str("data-url")
               then ApplyWidgetDefaults(Put(ui1, "ui:widget", Str("file")), Str("file"))
               else ui1;
    var ui3 := ApplyWidgetDefaults(ui2, Lookup(ui2, "ui:widget"));
    StringEarlyKeeps(schema, ui, widget, k);
    StringLateKeeps(opts, schema, ui3, widget, k);
  }

  lemma StringEarlyKeeps(schema: Json, ui: Ui, widget: Json, k: string)
    requires k == "ui:readonly" || k == "ui:disabled"
    ensures var ui1 := Put(ui, "ui:widget", widget);
      var ui2 := if Get(schema, "format") == Str("data-url")
                 then ApplyWidgetDefaults(Put(ui1, "ui:widget", Str("file")), Str("file"))
                 else ui1;
      Lookup(ApplyWidgetDefaults(ui2, Lookup(ui2, "ui:widget")), k) == Lookup(ui, k)
  {
    assert |k| == 11 && |"ui:widget"| == 9;
    AccessNotDefault();
    var ui1 := Put(ui, "ui:widget", widget);
    WidgetDefaultsFrame(Put(ui1, "ui:widget", Str("file")), Str("file"));
    var ui2 := if Get(schema, "format") == Str("data-url")
               then ApplyWidgetDefaults(Put(ui1, "ui:widget", Str("file")), Str("file"))
               else ui1;
    WidgetDefaultsFrame(ui2, Lookup(ui2, "ui:widget"));
  }

  lemma StringLateKeeps(opts: Json, schema: Json, ui3: Ui, widget: Json, k: string)
    requires PlaceholderSubject(schema).Ok? && (k == "ui:readonly" || k == "ui:disabled")
    ensures var ui4 := if widget == Str("textarea") then TextareaOptions(opts, schema, ui3) else ui3;
      var inputType := Get(schema, "inputType");
      var ui5 := if Truthy(inputType) then AddToUIOptions(opts, ui4, "inputType", inputType) else ui4;
      var ui6 := AddToUIOptions(opts, ui5, "placeholder", Str("Enter " + PlaceholderSubject(schema).value));
      Lookup(Put(ui6, "ui:autofocus", Or(Get(schema, "autofocus"), Bool(false))), k) == Lookup(ui3, k)
  {
    assert |k| == 11 && |"ui:autofocus"| == 12;
    var t1 := AddToUIOptions(opts, ui3, "widget", Str("textarea"));
    AddOther(opts, ui3, "widget", Str("textarea"), k);
    var t2 := AddToUIOptions(opts, t1, "autocomplete", Str("on"));
    AddOther(opts, t1, "autocomplete", Str("on"), k);
    AddOther(opts, t2, "rows", TextareaRows(schema), k);
    var ui4 := if widget == Str("textarea") then TextareaOptions(opts, schema, ui3) else ui3;
    var inputType := Get(schema, "inputType");
    AddOther(opts, ui4, "inputType", inputType, k);
    var ui5 := if Truthy(inputType) then AddToUIOptions(opts, ui4, "inputType", inputType) else ui4;
    AddOther(opts, ui5, "placeholder", Str("Enter " + PlaceholderSubject(schema).value), k);
  }

  /** A non-root value's `ui:readonly`/`ui:disabled` never reach the root: a
      root string, number, boolean or composition-only node has neither. */
  lemma RootAccess(opts: Json, schema: Json)
    requires ProcessSchema(opts, schema, true).Ok?
    requires EffectiveType(schema) != Str("array") && EffectiveType(schema) != Str("object")
    ensures var r := ProcessSchema(opts, schema, true).value;
      Lookup(r, "ui:readonly") == Undef && Lookup(r, "ui:disabled") == Undef
  {
    ProcessSchemaParts(opts, schema, true);
    var ui0 := NodeBase(opts, true).value;
    RootHasNoAccess(opts);
    ScalarStageKeeps(opts, schema, ui0, "ui:readonly");
    ScalarStageKeeps(opts, schema, ui0, "ui:disabled");
    var ui1 := TypeStage(opts, schema, ui0).value;
    var ui2 := ApplyCommon(opts, schema, ui1, true);
    ApplyCommonRoot(opts, schema, ui1);
    AccessNotLate();
    LateKeep(opts, schema, ui2, "ui:readonly");
    LateKeep(opts, schema, ui2, "ui:disabled");
  }

  /** The root directives hold neither access key. */
  lemma RootHasNoAccess(opts: Json)
    requires RootDirectives(opts).Ok?
    ensures Lookup(RootDirectives(opts).value, "ui:readonly") == Undef
    ensures Lookup(RootDirectives(opts).value, "ui:disabled") == Undef
  {
    assert |"ui:globalOptions"| != 11 && |"ui:rootFieldId"| != 11 && |"ui:submitButtonOptions"| != 11;
  }

  /** A string, number, boolean or composition-only type step leaves the access keys alone. */
  lemma ScalarStageKeeps(opts: Json, schema: Json, ui: Ui, k: string)
    requires TypeStage(opts, schema, ui).Ok? && (k == "ui:readonly" || k == "ui:disabled")
    requires EffectiveType(schema) != Str("array") && EffectiveType(schema) != Str("object")
    ensures Lookup(TypeStage(opts, schema, ui).value, k) == Lookup(ui, k)
  {
    var t := EffectiveType(schema);
    if t == Str("string") {
      assert TypeStage(opts, schema, ui) == HandleString(opts, schema, ui);
      StringStageKeeps(opts, schema, ui, k);
    } else {
      WidgetStageKeeps(opts, schema, ui, k);
    }
  }

  /** The number, boolean and composition-only type steps write only the widget and its defaults. */
  lemma WidgetStageKeeps(opts: Json, schema: Json, ui: Ui, k: string)
    requires TypeStage(opts, schema, ui).Ok? && (k == "ui:readonly" || k == "ui:disabled")
    requires EffectiveType(schema) !in {Str("string"), Str("array"), Str("object")}
    ensures Lookup(TypeStage(opts, schema, ui).value, k) == Lookup(ui, k)
  {
    assert |k| == 11 && |"ui:widget"| == 9;
    AccessNotDefault();
    TypeNamesDiffer();
    var t := EffectiveType(schema);
    if t == Str("number") || t == Str("integer") {
      var widget := DefaultWidget(opts, "number").value;
      WidgetDefaultsFrame(Put(ui, "ui:widget", widget), widget);
    } else if t != Str("boolean") {
      WidgetDefaultsFrame(Put(ui, "ui:widget", Str("select")), Str("select"));
    }
  }
}
