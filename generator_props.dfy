/** What `generateUISchema` guarantees about the tree it builds. */
module GeneratorProps {
  import opened Wrappers
  import opened Strings
  import opened Json
  import opened FieldType
  import opened Generator

  // ---------------------------------------------------------------- when generation throws

  /** The schemas the generator gets through without throwing: no node is
      `undefined`/`null`, a string node's title is a string if present, enums
      come with an array, composition keywords hold arrays, and every node
      whose type needs a default widget finds a readable widget table. */
  predicate Generates(opts: Json, schema: Json)
    decreases Size(schema), 2
  {
    !schema.Undef? && !schema.Null? && TypeGenerates(opts, schema) && RestGenerates(opts, schema)
  }

  /** The part of `Generates` the type switch depends on. */
  predicate TypeGenerates(opts: Json, schema: Json)
    decreases Size(schema), 1
  {
    var t := EffectiveType(schema);
    && (t == Str("string") ==> WidgetsReadable(opts) && PlaceholderSubject(schema).Ok?)
    && (t == Str("number") || t == Str("integer") || t == Str("boolean") ==> WidgetsReadable(opts))
    && (t == Str("array") && Truthy(Get(schema, "items")) ==>
          (ItemsSmaller(schema); Generates(opts, Get(schema, "items"))))
    && (t == Str("object") && Truthy(Get(schema, "properties")) ==> PropsGenerate(opts, schema))
  }

  /** The part of `Generates` the steps after the type switch depend on. */
  predicate RestGenerates(opts: Json, schema: Json)
    decreases Size(schema), 1
  {
    && (Truthy(Get(schema, "enum")) ==> EnumNames(schema).Ok?)
    && SubsGenerate(opts, schema, "anyOf")
    && SubsGenerate(opts, schema, "oneOf")
    && SubsGenerate(opts, schema, "allOf")
  }

  /** Every property schema generates. */
  predicate PropsGenerate(opts: Json, schema: Json)
    requires Truthy(Get(schema, "properties"))
    decreases Size(schema), 0, |Entries(Get(schema, "properties"))| + 1
  {
    PropsPrefixGenerate(opts, schema, |Entries(Get(schema, "properties"))|)
  }

  /** The first `n` property schemas generate. */
  predicate PropsPrefixGenerate(opts: Json, schema: Json, n: nat)
    requires Truthy(Get(schema, "properties")) && n <= |Entries(Get(schema, "properties"))|
    decreases Size(schema), 0, n
  {
    n == 0 ||
    (PropsPrefixGenerate(opts, schema, n - 1) &&
     (PropertySmaller(schema, n - 1);
      Generates(opts, Entries(Get(schema, "properties"))[n - 1].1)))
  }

  /** A composition keyword, when truthy, holds an array whose sub-schemas all generate. */
  predicate SubsGenerate(opts: Json, schema: Json, key: string)
    requires IsComposition(key)
    decreases Size(schema), 0, |Entries(Get(schema, key))| + 1
  {
    var subs := Get(schema, key);
    Truthy(subs) ==> subs.Arr? && SubsPrefixGenerate(opts, schema, key, |subs.elems|)
  }

  /** The first `n` sub-schemas of a composition keyword generate. */
  predicate SubsPrefixGenerate(opts: Json, schema: Json, key: string, n: nat)
    requires IsComposition(key) && Get(schema, key).Arr? && n <= |Get(schema, key).elems|
    decreases Size(schema), 0, n
  {
    n == 0 ||
    (SubsPrefixGenerate(opts, schema, key, n - 1) &&
     (SubSmaller(schema, key, n - 1);
      Generates(opts, Get(schema, key).elems[n - 1])))
  }

  /** Generation of a node succeeds exactly when its root directives can be
      read (at the root) and the schema is one the generator gets through. */
  lemma {:induction false} ProcessSchemaOk(opts: Json, schema: Json, isRoot: bool)
    ensures ProcessSchema(opts, schema, isRoot).Ok? <==> NodeBase(opts, isRoot).Ok? && Generates(opts, schema)
    decreases Size(schema), 5
  {
    if NodeBase(opts, isRoot).Ok? && !schema.Undef? && !schema.Null? {
      var ui0 := NodeBase(opts, isRoot).value;
      TypeStageOk(opts, schema, ui0);
      if TypeStage(opts, schema, ui0).Ok? {
        AfterTypeOk(opts, schema, isRoot, TypeStage(opts, schema, ui0).value);
      }
    }
  }

  lemma {:induction false} AfterTypeOk(opts: Json, schema: Json, isRoot: bool, ui1: Ui)
    requires !schema.Undef? && !schema.Null?
    ensures AfterType(opts, schema, isRoot, ui1).Ok? <==> RestGenerates(opts, schema)
    decreases Size(schema), 4
  {
    var ui2 := ApplyCommon(opts, schema, ui1, isRoot);
    EnumAndHiddenOk(schema, ui2);
    if EnumAndHidden(schema, ui2).Ok? {
      CompositionsOk(opts, schema, EnumAndHidden(schema, ui2).value);
    }
  }

  lemma EnumAndHiddenOk(schema: Json, ui: Ui)
    ensures EnumAndHidden(schema, ui).Ok? <==> (Truthy(Get(schema, "enum")) ==> EnumNames(schema).Ok?)
  {
  }

  lemma {:induction false} CompositionsOk(opts: Json, schema: Json, ui: Ui)
    ensures Compositions(opts, schema, ui).Ok? <==>
      SubsGenerate(opts, schema, "anyOf") && SubsGenerate(opts, schema, "oneOf") && SubsGenerate(opts, schema, "allOf")
    decreases Size(schema), 3
  {
    CompositionOk(opts, schema, "anyOf", ui);
    var r1 := Composition(opts, schema, "anyOf", ui);
    if r1.Ok? {
      CompositionOk(opts, schema, "oneOf", r1.value);
      var r2 := Composition(opts, schema, "oneOf", r1.value);
      if r2.Ok? {
        CompositionOk(opts, schema, "allOf", r2.value);
      }
    }
  }

  lemma {:induction false} TypeStageOk(opts: Json, schema: Json, ui: Ui)
    requires !schema.Undef? && !schema.Null?
    ensures TypeStage(opts, schema, ui).Ok? <==> TypeGenerates(opts, schema)
    decreases Size(schema), 3
  {
    var t := EffectiveType(schema);
    if t == Str("array") {
      TypeStageArray(opts, schema, ui);
    } else if t == Str("object") {
      TypeStageObject(opts, schema, ui);
    } else {
      TypeStageScalar(opts, schema, ui);
    }
  }

  lemma {:induction false} TypeStageArray(opts: Json, schema: Json, ui: Ui)
    requires EffectiveType(schema) == Str("array")
    ensures TypeStage(opts, schema, ui).Ok? <==> TypeGenerates(opts, schema)
    decreases Size(schema), 2
  {
    TypeNamesDiffer();
    HandleArrayOk(opts, schema, ui);
  }

  lemma {:induction false} TypeStageObject(opts: Json, schema: Json, ui: Ui)
    requires EffectiveType(schema) == Str("object")
    ensures TypeStage(opts, schema, ui).Ok? <==> TypeGenerates(opts, schema)
    decreases Size(schema), 2
  {
    TypeNamesDiffer();
    HandleObjectOk(opts, schema, ui);
  }

  lemma TypeStageScalar(opts: Json, schema: Json, ui: Ui)
    requires EffectiveType(schema) != Str("array") && EffectiveType(schema) != Str("object")
    ensures TypeStage(opts, schema, ui).Ok? <==> TypeGenerates(opts, schema)
  {
    TypeNamesDiffer();
    HandleStringOk(opts, schema, ui);
  }

  lemma HandleStringOk(opts: Json, schema: Json, ui: Ui)
    ensures HandleString(opts, schema, ui).Ok? <==> WidgetsReadable(opts) && PlaceholderSubject(schema).Ok?
  {
  }

  lemma {:induction false} HandleArrayOk(opts: Json, schema: Json, ui: Ui)
    ensures HandleArray(opts, schema, ui).Ok? <==>
      (Truthy(Get(schema, "items")) ==> Generates(opts, Get(schema, "items")))
    decreases Size(schema), 1
  {
    var items := Get(schema, "items");
    if Truthy(items) {
      ItemsSmaller(schema);
      ProcessSchemaOk(opts, items, false);
    }
    assert HandleArray(opts, schema, ui).Ok? <==> ArrayItems(opts, schema, AddToUIOptions(opts, ui, "arrayOptions", ArrayOptions)).Ok?;
  }

  lemma {:induction false} HandleObjectOk(opts: Json, schema: Json, ui: Ui)
    ensures HandleObject(opts, schema, ui).Ok? <==>
      (Truthy(Get(schema, "properties")) ==> PropsGenerate(opts, schema))
    decreases Size(schema), 1
  {
    var props := Get(schema, "properties");
    if Truthy(props) {
      var rs := PropertyResults(opts, schema);
      PropertyResultsOk(opts, schema, |rs|);
      assert rs[..|rs|] == rs;
    }
    assert HandleObject(opts, schema, ui).Ok? <==> ObjectProperties(opts, schema, ui).Ok?;
  }

  lemma {:induction false} PropertyResultsOk(opts: Json, schema: Json, n: nat)
    requires Truthy(Get(schema, "properties")) && n <= |Entries(Get(schema, "properties"))|
    ensures Collect(PropertyResults(opts, schema)[..n]).Ok? <==> PropsPrefixGenerate(opts, schema, n)
    decreases Size(schema), 0, n
  {
    if n > 0 {
      var es := Entries(Get(schema, "properties"));
      PropertyResultsOk(opts, schema, n - 1);
      PropertySmaller(schema, n - 1);
      ProcessSchemaOk(opts, es[n - 1].1, false);
      CollectSnoc(PropertyResults(opts, schema), n - 1);
      PropertyResultAt(opts, schema, n - 1);
      PrefixStep(opts, schema, n);
    }
  }

  lemma PrefixStep(opts: Json, schema: Json, n: nat)
    requires Truthy(Get(schema, "properties")) && 0 < n <= |Entries(Get(schema, "properties"))|
    ensures PropsPrefixGenerate(opts, schema, n) <==>
        PropsPrefixGenerate(opts, schema, n - 1) && Generates(opts, Entries(Get(schema, "properties"))[n - 1].1)
  {
  }

  lemma {:induction false} CompositionOk(opts: Json, schema: Json, key: string, ui: Ui)
    requires IsComposition(key)
    ensures Composition(opts, schema, key, ui).Ok? <==> SubsGenerate(opts, schema, key)
    decreases Size(schema), 2
  {
    var subs := Get(schema, key);
    if Truthy(subs) && subs.Arr? {
      var rs := SubResults(opts, schema, key);
      SubResultsOk(opts, schema, key, |rs|);
      assert rs[..|rs|] == rs;
    }
  }

  lemma {:induction false} SubResultsOk(opts: Json, schema: Json, key: string, n: nat)
    requires IsComposition(key) && Get(schema, key).Arr? && n <= |Get(schema, key).elems|
    ensures Collect(SubResults(opts, schema, key)[..n]).Ok? <==> SubsPrefixGenerate(opts, schema, key, n)
    decreases Size(schema), 0, n
  {
    if n > 0 {
      var es := Get(schema, key).elems;
      SubResultsOk(opts, schema, key, n - 1);
      SubSmaller(schema, key, n - 1);
      ProcessSchemaOk(opts, es[n - 1], false);
      CollectSnoc(SubResults(opts, schema, key), n - 1);
      SubResultAt(opts, schema, key, n - 1);
    }
  }
}
