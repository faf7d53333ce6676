/** `resolveSchema`: replaces every `{"$ref": "#/definitions/X", …}` object of a
    JSON Schema by the definition `X`, itself resolved, and drops the
    top-level `definitions`. Nothing guards against a definition that refers
    to itself, so the recursion is bounded here by `fuel`: at most `fuel`
    expansions may be nested, and one more is the RangeError the engine
    throws when its stack runs out. */
module ResolveSchema {
  import opened Wrappers
  import opened Strings
  import opened Json

  /** `resolveSchema(schema)`. */
  function ResolveSchema(schema: Json, fuel: nat): (r: Result<Json, JsError>)
    ensures schema.Undef? || schema.Null? ==> r == Failure(TypeError)
    ensures !schema.Undef? && !schema.Null? && !Truthy(Get(schema, "definitions")) ==> r == Ok(schema)
  {
    var defs :- Read(schema, "definitions");
    if !Truthy(defs) then Ok(schema)
    else
      // only an object holds a truthy `definitions`; neither its JSON round
      // trip nor `delete` on the copy can throw
      DefinitionsNotIndex();
      var copy := CloneFields(schema.fields);
      Resolve(Lookup(copy, "definitions"), Obj(Remove(copy, "definitions")), fuel)
  }

  lemma DefinitionsNotIndex()
    ensures ParseIndex("definitions").None?
  {
    assert !IsDigit("definitions"[0]);
  }

  /** The definition name a `$ref` string stands for: its first `#/definitions/` removed. */
  function RefKey(ref: string): string {
    ReplaceFirst(ref, "#/definitions/", "")
  }

  /** `{...d}`: the own entries of `d` copied into a fresh object. */
  function Spread(d: Json): (r: Json)
    ensures r.Obj?
  {
    Obj(PutAll([], Entries(d)))
  }

  /** The fuel left after one `$ref` expansion. */
  function Pred(fuel: nat): nat {
    if fuel == 0 then 0 else fuel - 1
  }

  /** The inner `resolveRefs(obj)`, over the copied definitions `defs`. */
  function Resolve(defs: Json, v: Json, fuel: nat): (r: Result<Json, JsError>)
    ensures !IsObject(v) ==> r == Ok(v)
    decreases fuel, Size(v), 2
  {
    if !IsObject(v) then Ok(v)
    else
      var ref := Get(v, "$ref");
      // a truthy `$ref` that is not a string has no `replace` method
      if Truthy(ref) && !ref.Str? then Failure(TypeError)
      else if Truthy(ref) && Truthy(Get(defs, RefKey(ref.s))) then
        if fuel == 0 then Failure(RangeError)
        else
          var d :- Resolve(defs, Get(defs, RefKey(ref.s)), Pred(fuel));
          Ok(Spread(d))
      else Members(defs, v, fuel)
  }

  /** `obj.map(resolveRefs)` on an array, `Object.fromEntries` of the resolved entries on an object. */
  function Members(defs: Json, v: Json, fuel: nat): (r: Result<Json, JsError>)
    requires IsObject(v)
    ensures r.Ok? ==> r.value.Obj? == v.Obj? && r.value.Arr? == v.Arr?
    decreases fuel, Size(v), 1
  {
    var es := Entries(v);
    var out :- Collect(seq(|es|, i requires 0 <= i < |es| => Member(defs, v, fuel, i)));
    if v.Arr? then Ok(Arr(out))
    else Ok(Obj(seq(|es|, i requires 0 <= i < |es| => (es[i].0, out[i]))))
  }

  function Member(defs: Json, v: Json, fuel: nat, i: nat): Result<Json, JsError>
    requires IsObject(v) && i < |Entries(v)|
    decreases fuel, Size(v), 0
  {
    Resolve(defs, Entries(v)[i].1, fuel)
  }

  // ---------------------------------------------------------------- references

  /** No object anywhere in the tree has a truthy `$ref`. */
  predicate NoRefs(v: Json)
    decreases v
  {
    match v
    case Obj(fs) => !Truthy(Lookup(fs, "$ref")) && forall i :: 0 <= i < |fs| ==> NoRefs(fs[i].1)
    case Arr(es) => forall i :: 0 <= i < |es| ==> NoRefs(es[i])
    case _ => true
  }

  /** A tree without references comes back as it is. */
  lemma {:induction false} NoRefsUnchanged(defs: Json, v: Json, fuel: nat)
    requires NoRefs(v)
    ensures Resolve(defs, v, fuel) == Ok(v)
    decreases Size(v)
  {
    if IsObject(v) {
      var es := Entries(v);
      var rs := seq(|es|, i requires 0 <= i < |es| => Member(defs, v, fuel, i));
      var xs := seq(|es|, i requires 0 <= i < |es| => es[i].1);
      forall i | 0 <= i < |es| ensures rs[i] == Ok(xs[i]) {
        NoRefsUnchanged(defs, es[i].1, fuel);
      }
      CollectValues(rs, xs);
      if v.Arr? {
        assert xs == v.elems;
      } else {
        assert seq(|es|, i requires 0 <= i < |es| => (es[i].0, xs[i])) == v.fields;
      }
    }
  }

  /** An object whose `$ref` names a definition is replaced by that definition,
      resolved; when that is an object of distinct keys, the result is exactly it. */
  lemma KnownRef(defs: Json, v: Json, fuel: nat, d: Json)
    requires v.Obj? && Get(v, "$ref").Str? && Truthy(Get(v, "$ref"))
    requires Truthy(Get(defs, RefKey(Get(v, "$ref").s))) && fuel > 0
    requires Resolve(defs, Get(defs, RefKey(Get(v, "$ref").s)), Pred(fuel)) == Ok(d)
    requires d.Obj? && DistinctKeys(d.fields)
    ensures Resolve(defs, v, fuel) == Ok(d)
  {
    PutAllFresh(d.fields);
  }

  /** Whatever else the object holds besides such a `$ref` is discarded: two
      objects with the same resolvable `$ref` resolve alike. */
  lemma SiblingsDiscarded(defs: Json, v: Json, w: Json, fuel: nat)
    requires v.Obj? && w.Obj? && Get(v, "$ref") == Get(w, "$ref")
    requires Get(v, "$ref").Str? && Truthy(Get(v, "$ref")) && Truthy(Get(defs, RefKey(Get(v, "$ref").s)))
    ensures Resolve(defs, v, fuel) == Resolve(defs, w, fuel)
  {
  }

  /** The members of an object resolve one by one, keys kept in place; the
      object throws exactly when one of its members does. */
  lemma MembersObject(defs: Json, fs: Fields, fuel: nat)
    ensures Members(defs, Obj(fs), fuel).Ok? <==> forall i :: 0 <= i < |fs| ==> Resolve(defs, fs[i].1, fuel).Ok?
    ensures Members(defs, Obj(fs), fuel).Ok? ==>
      var r := Members(defs, Obj(fs), fuel).value;
      r.Obj? && |r.fields| == |fs| &&
      forall i :: 0 <= i < |fs| ==> r.fields[i].0 == fs[i].0 && Resolve(defs, fs[i].1, fuel) == Ok(r.fields[i].1)
  {
    var rs := seq(|fs|, i requires 0 <= i < |fs| => Member(defs, Obj(fs), fuel, i));
    assert forall i :: 0 <= i < |fs| ==> rs[i] == Resolve(defs, fs[i].1, fuel);
    assert Members(defs, Obj(fs), fuel).Ok? <==> Collect(rs).Ok?;
    CollectOk(rs);
    if Collect(rs).Ok? {
      forall i | 0 <= i < |fs| ensures rs[i] == Ok(Collect(rs).value[i]) {
        CollectAt(rs, i);
      }
    }
  }

  /** Resolving the members keeps the keys, and every member that is not an object. */
  lemma {:induction false} ResolvedFields(defs: Json, fs: Fields, r: Fields, fuel: nat, k: string)
    requires |r| == |fs|
    requires forall i :: 0 <= i < |fs| ==> r[i].0 == fs[i].0 && Resolve(defs, fs[i].1, fuel) == Ok(r[i].1)
    ensures KeysOf(r) == KeysOf(fs)
    ensures !IsObject(Lookup(fs, k)) ==> Lookup(r, k) == Lookup(fs, k)
    decreases |fs|
  {
    if fs != [] {
      ResolvedFields(defs, fs[1..], r[1..], fuel, k);
    }
  }

  /** An object whose `$ref` names no definition is kept, `$ref` included, with
      every member resolved; it throws only when one of its members does. */
  lemma UnknownRef(defs: Json, fs: Fields, fuel: nat)
    requires Lookup(fs, "$ref").Str? && !Truthy(Get(defs, RefKey(Lookup(fs, "$ref").s)))
    ensures Resolve(defs, Obj(fs), fuel).Ok? <==> forall i :: 0 <= i < |fs| ==> Resolve(defs, fs[i].1, fuel).Ok?
    ensures Resolve(defs, Obj(fs), fuel).Ok? ==>
      var r := Resolve(defs, Obj(fs), fuel).value;
      r.Obj? && KeysOf(r.fields) == KeysOf(fs) && Lookup(r.fields, "$ref") == Lookup(fs, "$ref")
  {
    MembersObject(defs, fs, fuel);
    if Members(defs, Obj(fs), fuel).Ok? {
      ResolvedFields(defs, fs, Members(defs, Obj(fs), fuel).value.fields, fuel, "$ref");
    }
  }

  /** With no `$ref` on it, the top level keeps its keys except `definitions`. */
  lemma NoTopDefinitions(schema: Json, fuel: nat)
    requires schema.Obj? && DistinctKeys(schema.fields)
    requires Truthy(Get(schema, "definitions")) && !Truthy(Get(schema, "$ref"))
    ensures ResolveSchema(schema, fuel).Ok? ==>
      var r := ResolveSchema(schema, fuel).value;
      r.Obj? && "definitions" !in KeysOf(r.fields) &&
      forall k :: k != "definitions" ==> (k in KeysOf(r.fields) <==> k in KeysOf(CloneFields(schema.fields)))
  {
    var fs := schema.fields;
    var cf := CloneFields(fs);
    var root := Remove(cf, "definitions");
    assert |"$ref"| != |"definitions"|;
    assert Lookup(root, "$ref") == Lookup(cf, "$ref");
    CloneFieldsLookup(fs, "$ref");
    if !Lookup(fs, "$ref").Undef? {
      CloneTruthy(Lookup(fs, "$ref"));
    }
    var defs := Lookup(cf, "definitions");
    assert ResolveSchema(schema, fuel) == Members(defs, Obj(root), fuel);
    MembersObject(defs, root, fuel);
    if Members(defs, Obj(root), fuel).Ok? {
      ResolvedFields(defs, root, Members(defs, Obj(root), fuel).value.fields, fuel, "$ref");
    }
  }

  /** A schema without references loses its `definitions` and nothing else. */
  lemma OnlyDefinitionsDropped(schema: Json, fuel: nat)
    requires schema.Obj? && NoUndef(schema) && NoRefs(schema) && Truthy(Get(schema, "definitions"))
    ensures ResolveSchema(schema, fuel) == Ok(Obj(Remove(schema.fields, "definitions")))
  {
    var fs := schema.fields;
    DefinitionsNotIndex();
    CloneOfParsed(schema);
    var root := Remove(fs, "definitions");
    forall i | 0 <= i < |root| ensures NoRefs(root[i].1) {
      assert root[i] in fs;
      var j :| 0 <= j < |fs| && fs[j] == root[i];
    }
    assert |"$ref"| != |"definitions"|;
    assert Lookup(root, "$ref") == Lookup(fs, "$ref");
    NoRefsUnchanged(Lookup(fs, "definitions"), Obj(root), fuel);
  }

  // ---------------------------------------------------------------- fuel

  /** Once the fuel suffices, more fuel gives the same result. */
  lemma {:induction false} FuelMonotone(defs: Json, v: Json, f: nat, g: nat)
    requires f <= g && Resolve(defs, v, f).Ok?
    ensures Resolve(defs, v, g) == Resolve(defs, v, f)
    decreases f, Size(v), 2
  {
    if IsObject(v) {
      var ref := Get(v, "$ref");
      if Truthy(ref) && ref.Str? && Truthy(Get(defs, RefKey(ref.s))) {
        var def := Get(defs, RefKey(ref.s));
        ExpandRefOk(defs, v, f);
        ExpandRefAt(defs, v, g);
        FuelMonotone(defs, def, Pred(f), Pred(g));
      } else {
        assert !Truthy(ref) || ref.Str?;
        ExpandMembers(defs, v, f);
        ExpandMembers(defs, v, g);
        MembersMonotone(defs, v, f, g);
      }
    }
  }


  /** A `$ref` that resolves spends one unit of fuel on a definition that resolves. */
  lemma ExpandRefOk(defs: Json, v: Json, fuel: nat)
    requires IsObject(v) && Truthy(Get(v, "$ref")) && Get(v, "$ref").Str?
    requires Truthy(Get(defs, RefKey(Get(v, "$ref").s))) && Resolve(defs, v, fuel).Ok?
    ensures fuel > 0 && Resolve(defs, Get(defs, RefKey(Get(v, "$ref").s)), Pred(fuel)).Ok?
    ensures Resolve(defs, v, fuel) == Ok(Spread(Resolve(defs, Get(defs, RefKey(Get(v, "$ref").s)), Pred(fuel)).value))
  {
  }

  /** A `$ref` whose definition resolves on the remaining fuel resolves to its spread copy. */
  lemma ExpandRefAt(defs: Json, v: Json, fuel: nat)
    requires IsObject(v) && Truthy(Get(v, "$ref")) && Get(v, "$ref").Str?
    requires Truthy(Get(defs, RefKey(Get(v, "$ref").s))) && fuel > 0
    ensures var d := Resolve(defs, Get(defs, RefKey(Get(v, "$ref").s)), Pred(fuel));
      d.Ok? ==> Resolve(defs, v, fuel) == Ok(Spread(d.value))
  {
  }

  /** An object without a resolvable `$ref` resolves member by member. */
  lemma ExpandMembers(defs: Json, v: Json, fuel: nat)
    requires IsObject(v)
    requires var ref := Get(v, "$ref"); !Truthy(ref) || (ref.Str? && !Truthy(Get(defs, RefKey(ref.s))))
    ensures Resolve(defs, v, fuel) == Members(defs, v, fuel)
  {
  }

  lemma {:induction false} MembersMonotone(defs: Json, v: Json, f: nat, g: nat)
    requires IsObject(v) && f <= g && Members(defs, v, f).Ok?
    ensures Members(defs, v, g) == Members(defs, v, f)
    decreases f, Size(v), 1
  {
    var es := Entries(v);
    var rf := seq(|es|, i requires 0 <= i < |es| => Member(defs, v, f, i));
    var rg := seq(|es|, i requires 0 <= i < |es| => Member(defs, v, g, i));
    assert Collect(rf).Ok?;
    CollectOk(rf);
    forall i | 0 <= i < |es| ensures rg[i] == rf[i] {
      assert rf[i] == Resolve(defs, es[i].1, f);
      FuelMonotone(defs, es[i].1, f, g);
    }
    assert rg == rf;
  }
}
