/** `resolveRefs(schema)`: replaces every object holding a `$ref` key by a copy
    of the node its pointer names inside `schema`, with the object's other keys
    laid over that copy, and resolves the result again. The reference is split on
    `/` and walked from the root after dropping its first segment; no `~0`/`~1`
    or percent decoding is done (a simplified form of the JSON Pointer fragment
    of RFC 6901, sections 4 and 6). Nothing guards against a pointer whose
    target leads back to itself: `fuel` bounds the number of nested
    re-resolutions, and running out is the RangeError of an exhausted stack.
    Pointers are read against the tree as it was passed in. */
module ResolveRefs {
  import opened Wrappers
  import opened Strings
  import opened Json
  import opened PathHelpers

  // ---------------------------------------------------------------- the reference walk

  /** `refPath.split('/').slice(1)`. */
  function RefParts(ref: string): seq<string> {
    Split(ref, '/')[1..]
  }

  /** The error thrown for a pointer that leads nowhere. */
  function Unresolvable(ref: string): JsError {
    Error("Unable to resolve reference: " + ref)
  }

  /** The `for (const part of parts)` walk from `cur`: each step needs a truthy
      node holding the part (`in` throws on a primitive). */
  function Walk(cur: Json, ref: string, parts: seq<string>): (r: Result<Json, JsError>)
    decreases |parts|
  {
    if parts == [] then Ok(cur)
    else if !Truthy(cur) then Failure(Unresolvable(ref))
    else
      var has :- HasProp(cur, parts[0]);
      if !has then Failure(Unresolvable(ref))
      else Walk(Get(cur, parts[0]), ref, parts[1..])
  }

  /** The walk of `resolve`, one part per iteration. */
  method LookupRef(root: Json, ref: string) returns (r: Result<Json, JsError>)
    ensures r == Walk(root, ref, RefParts(ref))
  {
    var parts := RefParts(ref);
    var cur := root;
    var thrown: Option<JsError> := None;
    var i := 0;
    while i < |parts| && thrown.None?
      invariant 0 <= i <= |parts|
      invariant Walk(root, ref, parts) == if thrown.None? then Walk(cur, ref, parts[i..]) else Failure(thrown.value)
    {
      var part := parts[i];
      assert parts[i..][1..] == parts[i + 1..];
      if !Truthy(cur) {
        thrown := Some(Unresolvable(ref));
      } else {
        var has := HasProp(cur, part);
        if has.Failure? {
          thrown := Some(has.error);
        } else if !has.value {
          thrown := Some(Unresolvable(ref));
        } else {
          cur := Get(cur, part);
        }
      }
      i := i + 1;
    }
    if thrown.Some? {
      return Failure(thrown.value);
    }
    return Ok(cur);
  }

  /** A walk that succeeds ends where `getNodeByPath` does. */
  lemma {:induction false} WalkFound(cur: Json, ref: string, parts: seq<string>)
    requires Walk(cur, ref, parts).Ok?
    ensures Walk(cur, ref, parts).value == GetNodeByPath(cur, parts)
    decreases |parts|
  {
    if parts != [] {
      WalkFound(Get(cur, parts[0]), ref, parts[1..]);
      ConsPath(cur, parts[0], parts[1..]);
      assert [parts[0]] + parts[1..] == parts;
    }
  }

  /** A walk fails only with the missing-reference error, or with the
      TypeError of `in` on a primitive. */
  lemma {:induction false} WalkErrors(cur: Json, ref: string, parts: seq<string>)
    requires Walk(cur, ref, parts).Failure?
    ensures Walk(cur, ref, parts).error in {TypeError, Unresolvable(ref)}
    decreases |parts|
  {
    if parts != [] && Truthy(cur) && HasProp(cur, parts[0]) == Ok(true) {
      WalkErrors(Get(cur, parts[0]), ref, parts[1..]);
    }
  }

  /** Walking a concatenation walks the first part, then the second from where it ended. */
  lemma {:induction false} WalkAppend(cur: Json, ref: string, a: seq<string>, b: seq<string>)
    ensures Walk(cur, ref, a + b) == match Walk(cur, ref, a) case Ok(n) => Walk(n, ref, b) case Failure(e) => Failure(e)
    decreases |a|
  {
    if a == [] {
      assert a + b == b;
    } else {
      assert (a + b)[0] == a[0] && (a + b)[1..] == a[1..] + b;
      WalkAppend(Get(cur, a[0]), ref, a[1..], b);
    }
  }

  /** A walk that reaches an object lacking the next part throws
      "Unable to resolve reference: " followed by the reference. */
  lemma WalkMissing(cur: Json, ref: string, parts: seq<string>, i: nat)
    requires i < |parts| && Walk(cur, ref, parts[..i]).Ok?
    requires Walk(cur, ref, parts[..i]).value.Obj? && parts[i] !in Keys(Walk(cur, ref, parts[..i]).value)
    ensures Walk(cur, ref, parts) == Failure(Unresolvable(ref))
  {
    WalkAppend(cur, ref, parts[..i], parts[i..]);
    assert parts[..i] + parts[i..] == parts;
  }

  // ---------------------------------------------------------------- resolution

  /** `resolve(obj, root)`, with pointers read against `root`. */
  function Resolve(root: Json, v: Json, fuel: nat): (r: Result<Json, JsError>)
    ensures !IsObject(v) ==> r == Ok(v)
    decreases fuel, Size(v), 6
  {
    // objects and arrays are the truthy values of type "object"
    if !IsObject(v) then Ok(v)
    else if v.Obj? && "$ref" in KeysOf(v.fields) then Expand(root, v, fuel)
    else Children(root, v, fuel)
  }

  /** An object with a `$ref`: walk, copy, lay the other keys over the copy, resolve again. */
  function Expand(root: Json, v: Json, fuel: nat): (r: Result<Json, JsError>)
    requires v.Obj?
    decreases fuel, Size(v), 5
  {
    var ref := Get(v, "$ref");
    // `split` exists on strings only
    if !ref.Str? then Failure(TypeError)
    else
      var target :- Walk(root, ref.s, RefParts(ref.s));
      var resolved :- Clone(target);
      var merged :- Siblings(root, v, resolved, fuel, |v.fields|);
      if fuel == 0 then Failure(RangeError)
      else Resolve(root, merged, fuel - 1)
  }

  /** The copy after the first `n` iterations of `for (const key in obj)`. */
  function Siblings(root: Json, v: Json, resolved: Json, fuel: nat, n: nat): (r: Result<Json, JsError>)
    requires v.Obj? && n <= |v.fields|
    decreases fuel, Size(v), 4, n
  {
    if n == 0 then Ok(resolved)
    else
      var acc :- Siblings(root, v, resolved, fuel, n - 1);
      Sibling(root, v, acc, fuel, n - 1)
  }

  /** Iteration `i`: an object-valued key already in the copy is shallow-merged
      with its own resolution, any other key overwrites. */
  function Sibling(root: Json, v: Json, acc: Json, fuel: nat, i: nat): (r: Result<Json, JsError>)
    requires v.Obj? && i < |v.fields|
    decreases fuel, Size(v), 3
  {
    var (key, x) := v.fields[i];
    if key == "$ref" then Ok(acc)
    else if IsObject(x) then
      var has :- HasProp(acc, key);
      if has then
        FieldSmaller(v.fields, i);
        var sub :- Resolve(root, x, fuel);
        SetProp(acc, key, Assign(Get(acc, key), sub))
      else SetProp(acc, key, x)
    else SetProp(acc, key, x)
  }

  /** `Object.assign({}, a, b)`. */
  function Assign(a: Json, b: Json): (r: Json)
    ensures r.Obj?
  {
    Obj(PutAll(PutAll([], Entries(a)), Entries(b)))
  }

  /** An object without `$ref`, or an array: every member replaced by its resolution. */
  function Children(root: Json, v: Json, fuel: nat): (r: Result<Json, JsError>)
    requires IsObject(v)
    ensures r.Ok? ==> r.value.Obj? == v.Obj? && r.value.Arr? == v.Arr?
    decreases fuel, Size(v), 2
  {
    var es := Entries(v);
    var out :- Collect(ChildResults(root, v, fuel));
    if v.Arr? then Ok(Arr(out))
    else Ok(Obj(seq(|es|, i requires 0 <= i < |es| => (es[i].0, out[i]))))
  }

  /** The resolution of each member, in entry order; `Collect` runs them the
      way the `for` loop does, stopping at the first that throws. */
  function ChildResults(root: Json, v: Json, fuel: nat): (rs: seq<Result<Json, JsError>>)
    requires IsObject(v)
    ensures |rs| == |Entries(v)|
    decreases fuel, Size(v), 1
  {
    var es := Entries(v);
    seq(|es|, i requires 0 <= i < |es| => Child(root, v, fuel, i))
  }

  function Child(root: Json, v: Json, fuel: nat, i: nat): Result<Json, JsError>
    requires IsObject(v) && i < |Entries(v)|
    decreases fuel, Size(v), 0
  {
    Resolve(root, Entries(v)[i].1, fuel)
  }

  lemma ChildAt(root: Json, v: Json, fuel: nat, i: nat)
    requires IsObject(v) && i < |Entries(v)|
    ensures ChildResults(root, v, fuel)[i] == Resolve(root, Entries(v)[i].1, fuel)
  {
  }

  /** `resolveRefs(schema)`. */
  function ResolveRefs(schema: Json, fuel: nat): Result<Json, JsError> {
    Resolve(schema, schema, fuel)
  }

  // ---------------------------------------------------------------- what resolution promises

  /** No object anywhere in the tree holds a `$ref` key. */
  predicate RefFree(v: Json)
    decreases v
  {
    match v
    case Obj(fs) => "$ref" !in KeysOf(fs) && forall i :: 0 <= i < |fs| ==> RefFree(fs[i].1)
    case Arr(es) => forall i :: 0 <= i < |es| ==> RefFree(es[i])
    case _ => true
  }

  /** The members of `v` that come out of a run of `Children`, in place. */
  lemma ChildrenOk(root: Json, v: Json, fuel: nat)
    requires IsObject(v) && Children(root, v, fuel).Ok?
    ensures var es := Entries(v); var r := Children(root, v, fuel).value;
      |Entries(r)| == |es| &&
      forall i :: 0 <= i < |es| ==> Entries(r)[i].0 == es[i].0 && Resolve(root, es[i].1, fuel) == Ok(Entries(r)[i].1)
  {
    var rs := ChildResults(root, v, fuel);
    var out := Collect(rs).value;
    forall i | 0 <= i < |Entries(v)| ensures rs[i] == Ok(out[i]) && rs[i] == Resolve(root, Entries(v)[i].1, fuel) {
      CollectAt(rs, i);
      ChildAt(root, v, fuel, i);
    }
  }

  /** Whatever comes out of a resolution holds no `$ref` any more: every object
      with one was replaced and the replacement resolved again. */
  lemma {:induction false} ResolvedRefFree(root: Json, v: Json, fuel: nat)
    requires Resolve(root, v, fuel).Ok?
    ensures RefFree(Resolve(root, v, fuel).value)
    decreases fuel, Size(v), 1
  {
    if IsObject(v) {
      if v.Obj? && "$ref" in KeysOf(v.fields) {
        var ref := Get(v, "$ref");
        var t := Walk(root, ref.s, RefParts(ref.s)).value;
        var m := Siblings(root, v, Clone(t).value, fuel, |v.fields|).value;
        assert fuel > 0 && Resolve(root, v, fuel) == Resolve(root, m, fuel - 1);
        ResolvedRefFreeBelow(root, m, fuel);
      } else {
        ChildrenRefFree(root, v, fuel);
      }
    }
  }

  lemma ResolvedRefFreeBelow(root: Json, v: Json, fuel: nat)
    requires fuel > 0 && Resolve(root, v, fuel - 1).Ok?
    ensures RefFree(Resolve(root, v, fuel - 1).value)
    decreases fuel, 0, 0
  {
    ResolvedRefFree(root, v, fuel - 1);
  }

  lemma ChildrenRefFree(root: Json, v: Json, fuel: nat)
    requires IsObject(v) && !(v.Obj? && "$ref" in KeysOf(v.fields)) && Children(root, v, fuel).Ok?
    ensures RefFree(Children(root, v, fuel).value)
    decreases fuel, Size(v), 0
  {
    var es := Entries(v);
    var r := Children(root, v, fuel).value;
    ChildrenOk(root, v, fuel);
    forall i | 0 <= i < |es| ensures RefFree(Entries(r)[i].1) {
      ResolvedRefFree(root, es[i].1, fuel);
    }
    if r.Obj? {
      SameKeys(r.fields, es);
    }
  }

  /** A tree without `$ref` comes back as it is. */
  lemma {:induction false} RefFreeUnchanged(root: Json, v: Json, fuel: nat)
    requires RefFree(v)
    ensures Resolve(root, v, fuel) == Ok(v)
    decreases Size(v)
  {
    if IsObject(v) {
      var es := Entries(v);
      var rs := ChildResults(root, v, fuel);
      var xs := seq(|es|, i requires 0 <= i < |es| => es[i].1);
      forall i | 0 <= i < |es| ensures rs[i] == Ok(xs[i]) {
        ChildAt(root, v, fuel, i);
        RefFreeUnchanged(root, es[i].1, fuel);
      }
      CollectValues(rs, xs);
      if v.Arr? {
        assert xs == v.elems;
      } else {
        assert seq(|es|, i requires 0 <= i < |es| => (es[i].0, xs[i])) == v.fields;
      }
    }
  }

  /** Resolving twice is resolving once. */
  lemma ResolveIdempotent(root: Json, v: Json, fuel: nat, root': Json, fuel': nat)
    requires Resolve(root, v, fuel).Ok?
    ensures Resolve(root', Resolve(root, v, fuel).value, fuel') == Resolve(root, v, fuel)
  {
    ResolvedRefFree(root, v, fuel);
    RefFreeUnchanged(root', Resolve(root, v, fuel).value, fuel');
  }

  /** A `$ref` whose walk reaches an object lacking the next segment makes the
      whole resolution throw "Unable to resolve reference: " and the reference. */
  lemma MissingSegment(root: Json, fs: Fields, fuel: nat, ref: string, i: nat)
    requires "$ref" in KeysOf(fs) && Lookup(fs, "$ref") == Str(ref)
    requires i < |RefParts(ref)| && Walk(root, ref, RefParts(ref)[..i]).Ok?
    requires var n := Walk(root, ref, RefParts(ref)[..i]).value; n.Obj? && RefParts(ref)[i] !in Keys(n)
    ensures Resolve(root, Obj(fs), fuel) == Failure(Unresolvable(ref))
  {
    WalkMissing(root, ref, RefParts(ref), i);
  }

  /** What a sibling key ends up holding in the copy: an object value laid over
      the copy's own value for that key when it has one, else the value itself. */
  function SiblingValue(root: Json, prior: Json, present: bool, x: Json, fuel: nat): Result<Json, JsError> {
    if IsObject(x) && present then
      var sub :- Resolve(root, x, fuel);
      Ok(Assign(prior, sub))
    else Ok(x)
  }

  lemma SiblingObject(root: Json, fs: Fields, acc: Fields, fuel: nat, i: nat)
    requires i < |fs|
    ensures Sibling(root, Obj(fs), Obj(acc), fuel, i) ==
      if fs[i].0 == "$ref" then Ok(Obj(acc))
      else match SiblingValue(root, Lookup(acc, fs[i].0), fs[i].0 in KeysOf(acc), fs[i].1, fuel)
        case Ok(w) => Ok(Obj(Put(acc, fs[i].0, w)))
        case Failure(e) => Failure(e)
  {
  }

  /** Laying the keys of an object with a `$ref` over the copy of an object
      target: the copy keeps its keys and gains the object's others; a key
      other than `$ref` holds the object's value, or that value's resolution
      shallow-merged over the copy's when both are objects; the copy's other
      keys are untouched. */
  lemma {:induction false} SiblingsObject(root: Json, fs: Fields, resolved: Fields, fuel: nat, n: nat, k: string)
    requires DistinctKeys(fs) && n <= |fs|
    ensures Siblings(root, Obj(fs), Obj(resolved), fuel, n).Ok? ==>
      var r := Siblings(root, Obj(fs), Obj(resolved), fuel, n).value;
      var written := k != "$ref" && k in KeysOf(fs[..n]);
      r.Obj? &&
      (k in KeysOf(r.fields) <==> k in KeysOf(resolved) || written) &&
      (written ==> SiblingValue(root, Lookup(resolved, k), k in KeysOf(resolved), Lookup(fs, k), fuel) == Ok(Lookup(r.fields, k))) &&
      (!written ==> Lookup(r.fields, k) == Lookup(resolved, k))
    decreases n
  {
    var v := Obj(fs);
    if n > 0 && Siblings(root, v, Obj(resolved), fuel, n).Ok? {
      var (k', x) := fs[n - 1];
      SiblingsObject(root, fs, resolved, fuel, n - 1, k);
      SiblingsObject(root, fs, resolved, fuel, n - 1, k');
      var prev := Siblings(root, v, Obj(resolved), fuel, n - 1).value.fields;
      SiblingObject(root, fs, prev, fuel, n - 1);
      assert fs[..n][..n - 1] == fs[..n - 1];
      KeysOfSnoc(fs[..n]);
      DistinctSnoc(fs[..n]);
      LookupAt(fs, n - 1);
      if k' != "$ref" {
        var w := SiblingValue(root, Lookup(prev, k'), k' in KeysOf(prev), x, fuel).value;
        PutKeyIn(prev, k', w, k);
      }
    }
  }

  // ---------------------------------------------------------------- the imperative resolver

  /** `resolveRefs(schema)`, run as the source runs it. */
  method ResolveRefsMethod(schema: Json, fuel: nat) returns (r: Result<Json, JsError>)
    ensures r == ResolveRefs(schema, fuel)
  {
    r := ResolveValue(schema, schema, fuel);
  }

  method ResolveValue(root: Json, v: Json, fuel: nat) returns (r: Result<Json, JsError>)
    ensures r == Resolve(root, v, fuel)
    decreases fuel, Size(v), 6
  {
    if !IsObject(v) {
      r := Ok(v);
    } else if v.Obj? && "$ref" in KeysOf(v.fields) {
      r := ExpandRef(root, v, fuel);
    } else {
      r := ResolveChildren(root, v, fuel);
    }
  }

  method ExpandRef(root: Json, v: Json, fuel: nat) returns (r: Result<Json, JsError>)
    requires v.Obj?
    ensures r == Expand(root, v, fuel)
    decreases fuel, Size(v), 5
  {
    var ref := Get(v, "$ref");
    if !ref.Str? {
      return Failure(TypeError);
    }
    var target := LookupRef(root, ref.s);
    var resolved := if target.Failure? then target else Clone(target.value);
    if resolved.Failure? {
      return resolved;
    }
    var merged := MergeSiblings(root, v, resolved.value, fuel);
    if merged.Failure? {
      return merged;
    }
    if fuel == 0 {
      return Failure(RangeError);
    }
    r := ResolveValue(root, merged.value, fuel - 1);
  }

  /** The loop over the keys of `obj`, patching the copy in place. */
  method MergeSiblings(root: Json, v: Json, resolved: Json, fuel: nat) returns (r: Result<Json, JsError>)
    requires v.Obj?
    ensures r == Siblings(root, v, resolved, fuel, |v.fields|)
    decreases fuel, Size(v), 4
  {
    var acc := resolved;
    var thrown: Option<JsError> := None;
    var i := 0;
    while i < |v.fields| && thrown.None?
      invariant 0 <= i <= |v.fields|
      invariant Siblings(root, v, resolved, fuel, i) == if thrown.None? then Ok(acc) else Failure(thrown.value)
    {
      var step := PatchSibling(root, v, acc, fuel, i);
      if step.Failure? {
        thrown := Some(step.error);
      } else {
        acc := step.value;
      }
      i := i + 1;
    }
    if thrown.Some? {
      SiblingsStop(root, v, resolved, fuel, i, |v.fields|);
      return Failure(thrown.value);
    }
    return Ok(acc);
  }

  method PatchSibling(root: Json, v: Json, acc: Json, fuel: nat, i: nat) returns (r: Result<Json, JsError>)
    requires v.Obj? && i < |v.fields|
    ensures r == Sibling(root, v, acc, fuel, i)
    decreases fuel, Size(v), 3
  {
    var (key, x) := v.fields[i];
    if key == "$ref" {
      return Ok(acc);
    }
    var has := if IsObject(x) then HasProp(acc, key) else Ok(false);
    if has.Failure? {
      return Failure(has.error);
    }
    if !has.value {
      return SetProp(acc, key, x);
    }
    FieldSmaller(v.fields, i);
    var sub := ResolveValue(root, x, fuel);
    if sub.Failure? {
      return sub;
    }
    r := SetProp(acc, key, Assign(Get(acc, key), sub.value));
  }

  /** Once an iteration throws, the later ones do not run. */
  lemma {:induction false} SiblingsStop(root: Json, v: Json, resolved: Json, fuel: nat, i: nat, n: nat)
    requires v.Obj? && i <= n <= |v.fields| && Siblings(root, v, resolved, fuel, i).Failure?
    ensures Siblings(root, v, resolved, fuel, n) == Siblings(root, v, resolved, fuel, i)
    decreases n
  {
    if i < n {
      SiblingsStop(root, v, resolved, fuel, i, n - 1);
    }
  }

  /** `for (const key in obj) obj[key] = resolve(obj[key], root)`, on the entries of `obj`. */
  method ResolveChildren(root: Json, v: Json, fuel: nat) returns (r: Result<Json, JsError>)
    requires IsObject(v)
    ensures r == Children(root, v, fuel)
    decreases fuel, Size(v), 2
  {
    var es := Entries(v);
    var vals := ResolveMembers(root, v, fuel);
    if vals.Failure? {
      return Failure(vals.error);
    }
    if v.Arr? {
      r := Ok(Arr(vals.value));
    } else {
      r := Ok(Obj(seq(|es|, j requires 0 <= j < |es| => (es[j].0, vals.value[j]))));
    }
  }

  /** The member values of `obj`, each overwritten in place by its resolution. */
  method ResolveMembers(root: Json, v: Json, fuel: nat) returns (r: Result<seq<Json>, JsError>)
    requires IsObject(v)
    ensures r == Collect(ChildResults(root, v, fuel))
    decreases fuel, Size(v), 1
  {
    var es := Entries(v);
    ghost var rs := ChildResults(root, v, fuel);
    var vals := seq(|es|, j requires 0 <= j < |es| => es[j].1);
    var thrown: Option<JsError> := None;
    var i := 0;
    while i < |es| && thrown.None?
      invariant 0 <= i <= |es| && |vals| == |es|
      invariant Collect(rs[..i]) == if thrown.None? then Ok(vals[..i]) else Failure(thrown.value)
    {
      ChildAt(root, v, fuel, i);
      var x := ResolveValue(root, es[i].1, fuel);
      CollectUpdate(rs, i, vals);
      if x.Failure? {
        thrown := Some(x.error);
      } else {
        vals := vals[i := x.value];
      }
      i := i + 1;
    }
    assert rs[..|es|] == rs;
    if thrown.Some? {
      CollectStop(rs, i, |es|);
      return Failure(thrown.value);
    }
    assert vals[..|es|] == vals;
    return Ok(vals);
  }
}
