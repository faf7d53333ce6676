/** The UI schema editor form: its state (the edited tree and the path of the
    node on screen), the widget-change handler that resets widget-specific
    keys, breadcrumb navigation, the allow-list of widgets offered for a
    `ui:widget` field, and the order in which a node's keys are listed. */
module SchemaEditor {
  import opened Wrappers
  import opened Json
  import opened PathHelpers
  import opened PathSetter

  // ---------------------------------------------------------------- updates of the edited tree

  /** The state after `setLocalSchema(current => produce(current, recipe))`
      for the set at `path`: the new tree, or the old one when the recipe throws. */
  function Apply(s: Json, path: seq<Seg>, x: Json): (r: Json)
    ensures SetAt(s, path, x).Ok? ==> r == SetAt(s, path, x).value
    ensures SetAt(s, path, x).Failure? ==> r == s
  {
    match SetAt(s, path, x)
    case Ok(t) => t
    case Failure(_) => s
  }

  /** `fullPath.slice(0, -1)`. */
  function ParentPath(full: seq<string>): (p: seq<string>)
    ensures full != [] ==> full == p + [full[|full| - 1]]
    ensures full == [] ==> p == []
  {
    if full == [] then [] else full[..|full| - 1]
  }

  /** The keys a widget change removes from the widget's node, in the order they are removed. */
  const ResetKeys: seq<string> := ["ui:rows", "ui:autocomplete", "ui:accept", "ui:filePreview", "ui:inputType"]

  /** `keys.forEach(key => updateSchema([...parent, key], undefined))`. */
  function RemoveAll(s: Json, parent: seq<string>, keys: seq<string>): Json
    decreases |keys|
  {
    if keys == [] then s
    else Apply(RemoveAll(s, parent, keys[..|keys| - 1]), SKeys(parent + [keys[|keys| - 1]]), Undef)
  }

  /** The defaults the new widget brings: rows and autocomplete for a textarea,
      file preview and accept for a file input, an input type for plain text. */
  function AddDefaults(s: Json, parent: seq<string>, w: string): Json {
    if w == "textarea" then
      Apply(Apply(s, SKeys(parent + ["ui:rows"]), Num(5)), SKeys(parent + ["ui:autocomplete"]), Str("off"))
    else if w == "file" then
      Apply(Apply(s, SKeys(parent + ["ui:filePreview"]), Bool(false)), SKeys(parent + ["ui:accept"]), Str(""))
    else if w == "text" then
      Apply(s, SKeys(parent + ["ui:inputType"]), Str(""))
    else s
  }

  /** The tree after `handleWidgetChange(fullPath, w)`. */
  function WidgetChanged(s: Json, full: seq<string>, w: string): Json {
    var s1 := Apply(s, SKeys(full), Str(w));
    AddDefaults(RemoveAll(s1, ParentPath(full), ResetKeys), ParentPath(full), w)
  }

  // ---------------------------------------------------------------- the same on the widget's node

  function RemoveKeys(fs: Fields, keys: seq<string>): Fields
    decreases |keys|
  {
    if keys == [] then fs else Remove(RemoveKeys(fs, keys[..|keys| - 1]), keys[|keys| - 1])
  }

  function DefaultFields(fs: Fields, w: string): Fields {
    if w == "textarea" then Put(Put(fs, "ui:rows", Num(5)), "ui:autocomplete", Str("off"))
    else if w == "file" then Put(Put(fs, "ui:filePreview", Bool(false)), "ui:accept", Str(""))
    else if w == "text" then Put(fs, "ui:inputType", Str(""))
    else fs
  }

  /** The entries of the widget's node after the change, from its entries `fs`
      and the key `k` the widget is stored under. */
  function ResetFields(fs: Fields, k: string, w: string): Fields {
    DefaultFields(RemoveKeys(Put(fs, k, Str(w)), ResetKeys), w)
  }

  /** Any set in the object at `P` of a tree already grafted there. */
  lemma ApplyGraft(s: Json, P: seq<string>, a: Fields, k: string, x: Json)
    requires ObjAt(s, P)
    ensures Apply(Graft(s, P, a), SKeys(P + [k]), x) ==
      Graft(s, P, if x == Undef then Remove(a, k) else Put(a, k, x))
  {
    var g := Graft(s, P, a);
    GraftSet(g, P, k, x);
    GraftGraft(s, P, a, if x == Undef then Remove(a, k) else Put(a, k, x));
  }

  lemma {:induction false} RemoveAllGraft(s: Json, P: seq<string>, a: Fields, keys: seq<string>)
    requires ObjAt(s, P)
    ensures RemoveAll(Graft(s, P, a), P, keys) == Graft(s, P, RemoveKeys(a, keys))
    decreases |keys|
  {
    if keys != [] {
      var n := |keys| - 1;
      RemoveAllGraft(s, P, a, keys[..n]);
      ApplyGraft(s, P, RemoveKeys(a, keys[..n]), keys[n], Undef);
    }
  }

  lemma AddDefaultsGraft(s: Json, P: seq<string>, a: Fields, w: string)
    requires ObjAt(s, P)
    ensures AddDefaults(Graft(s, P, a), P, w) == Graft(s, P, DefaultFields(a, w))
  {
    if w == "textarea" {
      ApplyGraft(s, P, a, "ui:rows", Num(5));
      ApplyGraft(s, P, Put(a, "ui:rows", Num(5)), "ui:autocomplete", Str("off"));
    } else if w == "file" {
      ApplyGraft(s, P, a, "ui:filePreview", Bool(false));
      ApplyGraft(s, P, Put(a, "ui:filePreview", Bool(false)), "ui:accept", Str(""));
    } else if w == "text" {
      ApplyGraft(s, P, a, "ui:inputType", Str(""));
    }
  }

  /** When the widget's node is an object reached through objects, the whole
      change touches only that node, whose entries become `ResetFields`. */
  lemma WidgetChangeGraft(s: Json, P: seq<string>, k: string, w: string)
    requires ObjAt(s, P)
    ensures WidgetChanged(s, P + [k], w) == Graft(s, P, ResetFields(NodeAt(s, P), k, w))
  {
    var fs := NodeAt(s, P);
    assert ParentPath(P + [k]) == P;
    GraftSet(s, P, k, Str(w));
    assert Graft(s, P, fs) == s by { GraftSelf(s, P); }
    var a := Put(fs, k, Str(w));
    RemoveAllGraft(s, P, a, ResetKeys);
    AddDefaultsGraft(s, P, RemoveKeys(a, ResetKeys), w);
  }

  /** Grafting a node's own entries back changes nothing. */
  lemma {:induction false} GraftSelf(s: Json, P: seq<string>)
    requires ObjAt(s, P)
    ensures Graft(s, P, NodeAt(s, P)) == s
    decreases |P|
  {
    if P != [] {
      GraftSelf(Lookup(s.fields, P[0]), P[1..]);
      PutExisting(s.fields, P[0]);
    }
  }

  /** Writing back the value a present key reads changes nothing. */
  lemma {:induction false} PutExisting(fs: Fields, k: string)
    requires Lookup(fs, k) != Undef
    ensures Put(fs, k, Lookup(fs, k)) == fs
  {
    if fs[0].0 != k {
      PutExisting(fs[1..], k);
    }
  }

  /** What the widget's node holds after the change: the new widget under `k`,
      none of the reset keys except the new widget's own defaults, and every
      other key as before. */
  lemma ResetFacts(fs: Fields, k: string, w: string)
    requires k !in ResetKeys
    ensures var r := ResetFields(fs, k, w);
      && Lookup(r, k) == Str(w)
      && Lookup(r, "ui:rows") == (if w == "textarea" then Num(5) else Undef)
      && Lookup(r, "ui:autocomplete") == (if w == "textarea" then Str("off") else Undef)
      && Lookup(r, "ui:filePreview") == (if w == "file" then Bool(false) else Undef)
      && Lookup(r, "ui:accept") == (if w == "file" then Str("") else Undef)
      && Lookup(r, "ui:inputType") == (if w == "text" then Str("") else Undef)
      && (forall k' :: k' != k && k' !in ResetKeys ==> Lookup(r, k') == Lookup(fs, k'))
  {
    var a := RemoveKeys(Put(fs, k, Str(w)), ResetKeys);
    RemovedKeys(Put(fs, k, Str(w)), ResetKeys);
    assert Lookup(a, k) == Str(w);
    DefaultsFacts(a, w);
  }

  /** The defaults written on a node none of whose reset keys is set. */
  lemma DefaultsFacts(a: Fields, w: string)
    requires forall k' :: k' in ResetKeys ==> Lookup(a, k') == Undef
    ensures var r := DefaultFields(a, w);
      && Lookup(r, "ui:rows") == (if w == "textarea" then Num(5) else Undef)
      && Lookup(r, "ui:autocomplete") == (if w == "textarea" then Str("off") else Undef)
      && Lookup(r, "ui:filePreview") == (if w == "file" then Bool(false) else Undef)
      && Lookup(r, "ui:accept") == (if w == "file" then Str("") else Undef)
      && Lookup(r, "ui:inputType") == (if w == "text" then Str("") else Undef)
      && (forall k' :: k' !in ResetKeys ==> Lookup(r, k') == Lookup(a, k'))
  {
    assert Lookup(a, "ui:rows") == Undef && Lookup(a, "ui:autocomplete") == Undef;
    assert Lookup(a, "ui:accept") == Undef && Lookup(a, "ui:filePreview") == Undef;
    assert Lookup(a, "ui:inputType") == Undef;
    // the five keys have different lengths, so they are pairwise distinct
    assert |"ui:rows"| == 7 && |"ui:autocomplete"| == 15;
    assert |"ui:accept"| == 9 && |"ui:filePreview"| == 14 && |"ui:inputType"| == 12;
  }

  /** The reset keys are gone after `RemoveKeys`, and no other key changes. */
  lemma {:induction false} RemovedKeys(fs: Fields, keys: seq<string>)
    ensures forall k' :: k' in keys ==> k' !in KeysOf(RemoveKeys(fs, keys)) && Lookup(RemoveKeys(fs, keys), k') == Undef
    ensures forall k' :: k' !in keys ==> Lookup(RemoveKeys(fs, keys), k') == Lookup(fs, k')
    decreases |keys|
  {
    if keys != [] {
      var n := |keys| - 1;
      RemovedKeys(fs, keys[..n]);
      assert forall k' :: k' in keys <==> k' in keys[..n] || k' == keys[n] by {
        assert keys == keys[..n] + [keys[n]];
      }
    }
  }

  /** The reset keys are present afterwards exactly when the new widget brings them. */
  lemma ResetKeysPresent(fs: Fields, k: string, w: string)
    requires k !in ResetKeys
    ensures var r := ResetFields(fs, k, w);
      forall k' :: k' in ResetKeys ==> (k' in KeysOf(r) <==> Lookup(r, k') != Undef)
  {
    var a := RemoveKeys(Put(fs, k, Str(w)), ResetKeys);
    RemovedKeys(Put(fs, k, Str(w)), ResetKeys);
    var r := ResetFields(fs, k, w);
    forall k' | k' in ResetKeys ensures k' in KeysOf(r) <==> Lookup(r, k') != Undef {
      if w == "textarea" {
        PutKeyIn(a, "ui:rows", Num(5), k');
        PutKeyIn(Put(a, "ui:rows", Num(5)), "ui:autocomplete", Str("off"), k');
      } else if w == "file" {
        PutKeyIn(a, "ui:filePreview", Bool(false), k');
        PutKeyIn(Put(a, "ui:filePreview", Bool(false)), "ui:accept", Str(""), k');
      } else if w == "text" {
        PutKeyIn(a, "ui:inputType", Str(""), k');
      }
    }
  }

  // ---------------------------------------------------------------- navigation

  /** `current.slice(0, end)` for a whole-number `end` (a negative end counts from the back). */
  function SliceTo(path: seq<string>, end: int): (r: seq<string>)
    ensures |r| <= |path| && r == path[..|r|]
  {
    var e := if end < 0 then (if |path| + end < 0 then 0 else |path| + end)
             else if end > |path| then |path| else end;
    path[..e]
  }

  /** `handleBreadcrumbClick(index)`: "Root" (-1) goes back to the top;
      a crumb keeps the path up to and including that segment. */
  function Breadcrumb(path: seq<string>, index: int): (r: seq<string>)
    ensures |r| <= |path| && r == path[..|r|]
  {
    if index == -1 then [] else SliceTo(path, index + 1)
  }

  lemma BreadcrumbFacts(path: seq<string>, index: int)
    ensures index == -1 ==> Breadcrumb(path, index) == []
    ensures 0 <= index < |path| ==> Breadcrumb(path, index) == path[..index + 1]
    ensures index >= |path| ==> Breadcrumb(path, index) == path
  {
  }

  // ---------------------------------------------------------------- the widget allow-list

  const WidgetOptions: seq<string> :=
    ["text", "textarea", "updown", "checkbox", "select", "radio", "date", "datetime-local",
     "hidden", "password", "RadioWidget", "CheckboxesWidget"]

  const StringWidgets: seq<string> := ["text", "textarea", "password", "hidden", "file", "datetime", "date", "time"]
  const NumberWidgets: seq<string> := ["updown", "text", "hidden", "range"]
  const BoolWidgets: seq<string> := ["checkbox", "hidden"]
  const ChoiceWidgets: seq<string> := ["select", "RadioWidget", "CheckboxesWidget", "hidden"]

  /** `allowedWidgetsMapping[t]` (an own key of the mapping, or nothing). */
  function AllowedWidgetsMapping(t: string): (r: Option<seq<string>>)
    ensures r.Some? ==> "hidden" in r.value
  {
    if t == "string" then Some(StringWidgets)
    else if t == "number" then Some(NumberWidgets)
    else if t == "bool" then Some(BoolWidgets)
    else if t == "enum" || t == "array" || t == "oneOf" || t == "anyOf" || t == "allOf" then Some(ChoiceWidgets)
    else None
  }

  /** The widgets offered for the `ui:widget` field of `parentNode`. */
  function AllowedWidgets(parentNode: Json): (r: seq<string>)
    ensures "hidden" in r && |r| > 0
  {
    var ft := Get(parentNode, "ui:fieldType");
    var underlying := if Truthy(parentNode) && Truthy(ft) then ft else Str("string");
    match AllowedWidgetsMapping(ToPropertyKey(underlying))
    case Some(ws) => ws
    case None => WidgetOptions
  }

  /** Which list is offered: the string widgets when the node has no field
      type, the mapped list for a mapped type, all widget options otherwise. */
  lemma AllowedWidgetsFacts(parentNode: Json)
    ensures !Truthy(parentNode) || !Truthy(Get(parentNode, "ui:fieldType")) ==>
      AllowedWidgets(parentNode) == StringWidgets
    ensures Truthy(parentNode) && Get(parentNode, "ui:fieldType") == Str("number") ==>
      AllowedWidgets(parentNode) == NumberWidgets
    ensures Truthy(parentNode) && Get(parentNode, "ui:fieldType") == Str("bool") ==>
      AllowedWidgets(parentNode) == BoolWidgets
    ensures (&& Truthy(parentNode) && Truthy(Get(parentNode, "ui:fieldType"))
             && AllowedWidgetsMapping(ToPropertyKey(Get(parentNode, "ui:fieldType"))).None?) ==>
      AllowedWidgets(parentNode) == WidgetOptions
  {
  }

  // ---------------------------------------------------------------- listing a node's keys

  /** `xs.filter(v => v !== bad)`. */
  function Without(xs: seq<Json>, bad: Json): (r: seq<Json>)
    ensures |r| <= |xs|
  {
    if xs == [] then []
    else (if xs[0] == bad then [] else [xs[0]]) + Without(xs[1..], bad)
  }

  lemma {:induction false} WithoutIn(xs: seq<Json>, bad: Json, v: Json)
    ensures v in Without(xs, bad) <==> v in xs && v != bad
  {
    if xs != [] {
      WithoutIn(xs[1..], bad, v);
      assert v in xs <==> v == xs[0] || v in xs[1..];
    }
  }

  lemma {:induction false} WithoutAppend(a: seq<Json>, b: seq<Json>, bad: Json)
    ensures Without(a + b, bad) == Without(a, bad) + Without(b, bad)
  {
    if a != [] {
      var h := if a[0] == bad then [] else [a[0]];
      assert (a + b)[0] == a[0] && (a + b)[1..] == a[1..] + b;
      assert Without(a + b, bad) == h + Without(a[1..] + b, bad);
      WithoutAppend(a[1..], b, bad);
      assert h + (Without(a[1..], bad) + Without(b, bad)) == (h + Without(a[1..], bad)) + Without(b, bad);
    } else {
      assert a + b == b;
    }
  }

  /** The keys of the node that are not listed in `order` (nor `ui:order` itself), in object order. */
  function Remaining(ks: seq<string>, order: seq<Json>): (r: seq<string>)
    ensures forall k :: k in r <==> k in ks && k != "ui:order" && Str(k) !in order
  {
    if ks == [] then []
    else (if ks[0] != "ui:order" && Str(ks[0]) !in order then [ks[0]] else []) + Remaining(ks[1..], order)
  }

  function Strs(ks: seq<string>): (r: seq<Json>)
    ensures |r| == |ks| && forall i :: 0 <= i < |ks| ==> r[i] == Str(ks[i])
  {
    seq(|ks|, i requires 0 <= i < |ks| => Str(ks[i]))
  }

  lemma StrsIn(ks: seq<string>, k: string)
    ensures Str(k) in Strs(ks) <==> k in ks
  {
    if k in ks {
      var i :| 0 <= i < |ks| && ks[i] == k;
      assert Strs(ks)[i] == Str(k);
    }
  }

  /** The keys of the node on screen in the order the form lists them. */
  function SortedKeys(node: Json): (r: seq<Json>)
    requires Truthy(node)
  {
    var order := Get(node, "ui:order");
    if node.Obj? && "ui:order" in KeysOf(node.fields) && order.Arr? then
      Without(order.elems + Strs(Remaining(Keys(node), order.elems)), Str("ui:order"))
    else Without(Strs(Keys(node)), Str("ui:order"))
  }

  /** `ui:order` itself is never listed; every other key is; when the node
      has a `ui:order` array, its entries come first and in their order, and
      everything after them is a key of the node that the order leaves out. */
  lemma SortedKeysFacts(node: Json, k: string)
    requires Truthy(node)
    ensures Str("ui:order") !in SortedKeys(node)
    ensures k in Keys(node) && k != "ui:order" ==> Str(k) in SortedKeys(node)
    ensures var order := Get(node, "ui:order");
      node.Obj? && "ui:order" in KeysOf(node.fields) && order.Arr? ==>
        var first := Without(order.elems, Str("ui:order"));
        && |first| <= |SortedKeys(node)|
        && SortedKeys(node)[..|first|] == first
        && (Str(k) in SortedKeys(node)[|first|..] <==> k in Keys(node) && k != "ui:order" && Str(k) !in order.elems)
    ensures Str(k) in SortedKeys(node) ==>
      k in Keys(node) || (Get(node, "ui:order").Arr? && Str(k) in Get(node, "ui:order").elems)
  {
    var order := Get(node, "ui:order");
    var u := Str("ui:order");
    if node.Obj? && "ui:order" in KeysOf(node.fields) && order.Arr? {
      var rest := Remaining(Keys(node), order.elems);
      WithoutAppend(order.elems, Strs(rest), u);
      var first := Without(order.elems, u);
      var tail := Without(Strs(rest), u);
      assert SortedKeys(node) == first + tail;
      assert SortedKeys(node)[..|first|] == first && SortedKeys(node)[|first|..] == tail;
      StrsIn(rest, k);
      WithoutIn(order.elems, u, u);
      WithoutIn(Strs(rest), u, u);
      WithoutIn(order.elems, u, Str(k));
      WithoutIn(Strs(rest), u, Str(k));
    } else {
      StrsIn(Keys(node), k);
      WithoutIn(Strs(Keys(node)), u, u);
      WithoutIn(Strs(Keys(node)), u, Str(k));
    }
  }

  // ---------------------------------------------------------------- the form's state

  class Editor {
    /** `localSchema`: the UI schema being edited. */
    var localSchema: Json
    /** `currentPath`: the keys leading to the node on screen. */
    var currentPath: seq<string>

    constructor (uiSchema: Json)
      ensures localSchema == uiSchema && currentPath == []
    {
      localSchema := uiSchema;
      currentPath := [];
    }

    /** The effect that takes a new `uiSchema` prop as the edited tree. */
    method Receive(uiSchema: Json)
      modifies this
      ensures localSchema == uiSchema && currentPath == old(currentPath)
    {
      localSchema := uiSchema;
    }

    /** `updateSchema(path, value)`. */
    method UpdateSchema(path: seq<Seg>, value: Json)
      modifies this
      ensures localSchema == Apply(old(localSchema), path, value) && currentPath == old(currentPath)
    {
      var r := SetPath(localSchema, path, value);
      if r.Ok? {
        localSchema := r.value;
      }
    }

    /** `handleWidgetChange(fullPath, newWidgetValue)`. */
    method HandleWidgetChange(fullPath: seq<string>, w: string)
      modifies this
      ensures localSchema == WidgetChanged(old(localSchema), fullPath, w) && currentPath == old(currentPath)
    {
      UpdateSchema(SKeys(fullPath), Str(w));
      var parent := ParentPath(fullPath);
      RemoveEach(parent, ResetKeys);
      AddWidgetDefaults(parent, w);
    }

    /** `keys.forEach(key => updateSchema([...parent, key], undefined))`. */
    method RemoveEach(parent: seq<string>, keys: seq<string>)
      modifies this
      ensures localSchema == RemoveAll(old(localSchema), parent, keys) && currentPath == old(currentPath)
    {
      ghost var s0 := localSchema;
      for i := 0 to |keys|
        invariant localSchema == RemoveAll(s0, parent, keys[..i]) && currentPath == old(currentPath)
      {
        assert keys[..i + 1][..i] == keys[..i];
        UpdateSchema(SKeys(parent + [keys[i]]), Undef);
      }
      assert keys[..|keys|] == keys;
    }

    /** The `if` on the new widget that re-adds its defaults. */
    method AddWidgetDefaults(parent: seq<string>, w: string)
      modifies this
      ensures localSchema == AddDefaults(old(localSchema), parent, w) && currentPath == old(currentPath)
    {
      if w == "textarea" {
        UpdateSchema(SKeys(parent + ["ui:rows"]), Num(5));
        UpdateSchema(SKeys(parent + ["ui:autocomplete"]), Str("off"));
      } else if w == "file" {
        UpdateSchema(SKeys(parent + ["ui:filePreview"]), Bool(false));
        UpdateSchema(SKeys(parent + ["ui:accept"]), Str(""));
      } else if w == "text" {
        UpdateSchema(SKeys(parent + ["ui:inputType"]), Str(""));
      }
    }

    /** `handleBreadcrumbClick(index)`. */
    method HandleBreadcrumbClick(index: int)
      modifies this
      ensures currentPath == Breadcrumb(old(currentPath), index) && localSchema == old(localSchema)
    {
      currentPath := Breadcrumb(currentPath, index);
    }

    /** The node the form shows; when the path no longer leads to a truthy
        node the form goes back to the root and shows nothing this time. */
    method CurrentNode() returns (node: Option<Json>)
      modifies this
      ensures var n := GetNodeByPath(old(localSchema), old(currentPath));
        && (Truthy(n) ==> node == Some(n) && currentPath == old(currentPath))
        && (!Truthy(n) ==> node == None && currentPath == [])
      ensures localSchema == old(localSchema)
    {
      var n := GetNodeByPath(localSchema, currentPath);
      if !Truthy(n) {
        currentPath := [];
        return None;
      }
      return Some(n);
    }

    /** The widgets offered for the `ui:widget` field at `fullPath`. */
    function WidgetChoices(fullPath: seq<string>): (r: seq<string>)
      reads this
      ensures "hidden" in r
    {
      AllowedWidgets(GetNodeByPath(localSchema, ParentPath(fullPath)))
    }
  }
}
