/** The editor's `updateSchema(path, value)` setter: inside an immer `produce`
    it walks the draft from the root, creating a missing intermediate slot as
    `[]` when the next segment is a number and `{}` otherwise, then writes the
    value at the last segment, or deletes that key when the value is
    `undefined`. `produce` leaves the previous tree untouched; here trees are
    values, so the new tree is simply a new value. */
module PathSetter {
  import opened Wrappers
  import opened Strings
  import opened Json
  import opened PathHelpers

  /** A path segment: a property name or a number. */
  datatype Seg = SKey(name: string) | SIdx(index: nat)

  /** The property key a segment stands for (`cur[seg]` converts a number to its decimal string). */
  function K(seg: Seg): string {
    match seg
    case SKey(s) => s
    case SIdx(n) => NatToString(n)
  }

  function SegKeys(path: seq<Seg>): (ks: seq<string>)
    ensures |ks| == |path| && forall i :: 0 <= i < |path| ==> ks[i] == K(path[i])
  {
    seq(|path|, i requires 0 <= i < |path| => K(path[i]))
  }

  /** A string path as segments. */
  function SKeys(p: seq<string>): (path: seq<Seg>)
    ensures |path| == |p| && forall i :: 0 <= i < |p| ==> path[i] == SKey(p[i])
    ensures SegKeys(path) == p
  {
    var path := seq(|p|, i requires 0 <= i < |p| => SKey(p[i]));
    assert SegKeys(path) == p;
    path
  }

  /** `typeof path[i + 1] === 'number' ? [] : {}`. */
  function Fresh(next: Seg): (r: Json)
    ensures r.Arr? <==> next.SIdx?
    ensures IsObject(r) && Entries(r) == []
  {
    if next.SIdx? then Arr([]) else Obj([])
  }

  /** The tree `updateSchema(path, x)` produces from `cur`, or the error its
      recipe throws (reading a property of `undefined`/`null`, or writing one
      on a primitive). */
  function SetAt(cur: Json, path: seq<Seg>, x: Json): (r: Result<Json, JsError>)
    ensures path == [] ==> r == Ok(cur)
    decreases |path|
  {
    if path == [] then Ok(cur)
    else if |path| == 1 then
      if x == Undef then DeleteProp(cur, K(path[0])) else SetProp(cur, K(path[0]), x)
    else
      var k := K(path[0]);
      var cur1 :- Slot(cur, k, path[1]);
      Up(cur1, k, SetAt(Get(cur1, k), path[1..], x))
  }

  /** `if (cur[seg] === undefined) cur[seg] = fresh`: the node once the slot under `k` exists. */
  function Slot(cur: Json, k: string, next: Seg): (r: Result<Json, JsError>)
    ensures r.Ok? && Get(cur, k) != Undef ==> r.value == cur
    ensures r.Ok? && Get(cur, k) == Undef && (cur.Obj? || ParseIndex(k).Some?) ==> Get(r.value, k) == Fresh(next)
  {
    var child :- Read(cur, k);
    if child == Undef then SetProp(cur, k, Fresh(next)) else Ok(cur)
  }

  /** How a change below `a[k]` shows in `a`: the draft's child object is
      updated in place, so `a` sees it; a primitive child cannot be changed in
      place, and `a` stays as it is. */
  function Up(a: Json, k: string, inner: Result<Json, JsError>): (r: Result<Json, JsError>)
    ensures inner.Failure? ==> r == inner
  {
    match inner
    case Failure(e) => Failure(e)
    case Ok(sub) => if IsObject(Get(a, k)) then SetProp(a, k, sub) else Ok(a)
  }

  /** The remaining set under the ancestors `anc`, each entered through the key in `ks`. */
  function Wrap(anc: seq<Json>, ks: seq<string>, inner: Result<Json, JsError>): Result<Json, JsError>
    requires |anc| == |ks|
  {
    if anc == [] then inner
    else Up(anc[0], ks[0], Wrap(anc[1..], ks[1..], inner))
  }

  lemma {:induction false} WrapSnoc(anc: seq<Json>, ks: seq<string>, a: Json, k: string, inner: Result<Json, JsError>)
    requires |anc| == |ks|
    ensures Wrap(anc + [a], ks + [k], inner) == Wrap(anc, ks, Up(a, k, inner))
    decreases |anc|
  {
    if anc != [] {
      assert (anc + [a])[1..] == anc[1..] + [a];
      assert (ks + [k])[1..] == ks[1..] + [k];
      WrapSnoc(anc[1..], ks[1..], a, k, inner);
    }
  }

  lemma {:induction false} WrapFailure(anc: seq<Json>, ks: seq<string>, e: JsError)
    requires |anc| == |ks|
    ensures Wrap(anc, ks, Failure(e)) == Failure(e)
    decreases |anc|
  {
    if anc != [] {
      WrapFailure(anc[1..], ks[1..], e);
    }
  }

  /** The recipe's loop: descend with `cur`, creating missing slots, then write
      or delete at the last segment; the ancestors are kept so that the new
      children can be stored back into them. */
  method SetPath(root: Json, path: seq<Seg>, x: Json) returns (r: Result<Json, JsError>)
    ensures r == SetAt(root, path, x)
  {
    if |path| == 0 {
      return Ok(root);
    }
    var anc: seq<Json> := [];
    var ks: seq<string> := [];
    var cur := root;
    var thrown: Option<JsError> := None;
    var i := 0;
    while i < |path| - 1 && thrown.None?
      invariant 0 <= i <= |path| - 1 && |anc| == i && |ks| == i
      invariant SetAt(root, path, x) ==
        if thrown.None? then Wrap(anc, ks, SetAt(cur, path[i..], x)) else Failure(thrown.value)
      decreases |path| - i, if thrown.None? then 1 else 0
    {
      var k := K(path[i]);
      assert path[i..][1..] == path[i + 1..];
      var child := Read(cur, k);
      var cur1 := cur;
      if child.Failure? {
        WrapFailure(anc, ks, child.error);
        thrown := Some(child.error);
      } else if child.value == Undef {
        var made := SetProp(cur, k, Fresh(path[i + 1]));
        if made.Failure? {
          WrapFailure(anc, ks, made.error);
          thrown := Some(made.error);
        } else {
          cur1 := made.value;
        }
      }
      if thrown.None? {
        WrapSnoc(anc, ks, cur1, k, SetAt(Get(cur1, k), path[i + 1..], x));
        anc, ks := anc + [cur1], ks + [k];
        cur := Get(cur1, k);
        i := i + 1;
      }
    }
    if thrown.Some? {
      return Failure(thrown.value);
    }
    assert path[i..] == [path[i]];
    var k := K(path[i]);
    var leaf := if x == Undef then DeleteProp(cur, k) else SetProp(cur, k, x);
    if leaf.Failure? {
      WrapFailure(anc, ks, leaf.error);
      return leaf;
    }
    var node := StoreBack(anc, ks, leaf.value);
    return Ok(node);
  }

  /** Stores each new child back into its parent, deepest first (in the draft
      this happens by itself, the children being shared with their parents). */
  method StoreBack(anc: seq<Json>, ks: seq<string>, leaf: Json) returns (node: Json)
    requires |anc| == |ks|
    ensures Wrap(anc, ks, Ok(leaf)) == Ok(node)
  {
    node := leaf;
    var j := |anc|;
    assert anc[..j] == anc && ks[..j] == ks;
    while j > 0
      invariant 0 <= j <= |anc|
      invariant Wrap(anc, ks, Ok(leaf)) == Wrap(anc[..j], ks[..j], Ok(node))
    {
      j := j - 1;
      assert anc[..j + 1] == anc[..j] + [anc[j]] && ks[..j + 1] == ks[..j] + [ks[j]];
      WrapSnoc(anc[..j], ks[..j], anc[j], ks[j], Ok(node));
      if IsObject(Get(anc[j], ks[j])) {
        node := SetProp(anc[j], ks[j], node).value;
      } else {
        node := anc[j];
      }
    }
  }

  // ---------------------------------------------------------------- what a set does

  /** A set on a primitive either throws or changes nothing, which is why `Up`
      leaves the parent of a primitive child as it is. Sets on objects and
      arrays keep their kind, and `undefined`/`null` can only take the empty path. */
  lemma {:induction false} SetAtShape(v: Json, p: seq<Seg>, x: Json)
    requires SetAt(v, p, x).Ok?
    ensures var t := SetAt(v, p, x).value;
      t.Obj? == v.Obj? && t.Arr? == v.Arr? && (!IsObject(v) ==> t == v)
    ensures v.Undef? || v.Null? ==> p == []
    decreases |p|
  {
    if |p| >= 2 {
      var k := K(p[0]);
      Descend(v, p, x);
      var sub := Get(Slot(v, k, p[1]).value, k);
      if !IsObject(sub) {
        SetAtShape(sub, p[1..], x);
      }
    }
  }

  /** Writing a defined value below a primitive always throws. */
  lemma {:induction false} PrimitiveFails(v: Json, p: seq<Seg>, x: Json)
    requires !IsObject(v) && p != [] && (x != Undef || v.Undef? || v.Null?)
    ensures SetAt(v, p, x).Failure?
    decreases |p|
  {
    if |p| >= 2 && !v.Undef? && !v.Null? {
      var k := K(p[0]);
      if Get(v, k) != Undef {
        PrimitiveFails(Get(v, k), p[1..], x);
      }
    }
  }

  /** One level down: the slot the set goes through, and how its result shows in the parent. */
  lemma Descend(s: Json, p: seq<Seg>, x: Json)
    requires |p| >= 2 && SetAt(s, p, x).Ok?
    ensures Slot(s, K(p[0]), p[1]).Ok?
    ensures var c := Slot(s, K(p[0]), p[1]).value;
      var sub := Get(c, K(p[0]));
      var t := SetAt(s, p, x).value;
      && SetAt(sub, p[1..], x).Ok?
      && (IsObject(sub) ==> IsObject(t) && Get(t, K(p[0])) == SetAt(sub, p[1..], x).value)
      && (!IsObject(sub) ==> t == c)
  {
  }

  lemma SegKeysCons(p: seq<Seg>)
    requires p != []
    ensures SegKeys(p) == [K(p[0])] + SegKeys(p[1..])
    ensures |p| >= 2 ==> SegKeys(p)[..|p| - 1] == [K(p[0])] + SegKeys(p[1..])[..|p| - 2]
    ensures |p| >= 2 ==> p[1..][|p| - 2] == p[|p| - 1]
  {
    assert SegKeys(p) == [K(p[0])] + SegKeys(p[1..]);
  }

  /** After a set with a defined value, looking the path up gives the value,
      except when the last key names a property of an array, which an array
      parsed from JSON cannot hold. */
  lemma {:induction false} ReadBack(s: Json, p: seq<Seg>, x: Json)
    requires p != [] && x != Undef && SetAt(s, p, x).Ok?
    ensures ReadsBack(SetAt(s, p, x).value, SegKeys(p), ParseIndex(K(p[|p| - 1])).None?, x)
    decreases |p|
  {
    var t := SetAt(s, p, x).value;
    var k := K(p[0]);
    SegKeysCons(p);
    if |p| == 1 {
      ReadBackLeaf(s, k, x);
    } else {
      Descend(s, p, x);
      var sub := Get(Slot(s, k, p[1]).value, k);
      if !IsObject(sub) {
        PrimitiveFails(sub, p[1..], x);
        assert false;
      }
      ReadBack(sub, p[1..], x);
      ReadBackStep(t, k, SegKeys(p[1..]), ParseIndex(K(p[|p| - 1])).None?, x);
    }
  }

  /** A read-back below the child under `k` is a read-back from its parent. */
  lemma ReadBackStep(t: Json, k: string, ks: seq<string>, named: bool, x: Json)
    requires IsObject(t) && ks != [] && ReadsBack(Get(t, k), ks, named, x)
    ensures ReadsBack(t, [k] + ks, named, x)
  {
    Through(t, k, ks);
    assert ([k] + ks)[..|ks|] == [k] + ks[..|ks| - 1];
  }

  /** What a lookup after a defined write gives: the value, or, for a named key
      written on an array (`named`), nothing at all, the node above being an array. */
  predicate ReadsBack(t: Json, ks: seq<string>, named: bool, x: Json)
    requires ks != []
  {
    || GetNodeByPath(t, ks) == x
    || (named && GetNodeByPath(t, ks[..|ks| - 1]).Arr?)
  }

  lemma ReadBackLeaf(s: Json, k: string, x: Json)
    requires x != Undef && SetProp(s, k, x).Ok?
    ensures ReadsBack(SetProp(s, k, x).value, [k], ParseIndex(k).None?, x)
  {
    ConsPath(SetProp(s, k, x).value, k, []);
  }

  /** Reading `[k] + ks` from a truthy node, and the same without the last key. */
  lemma Through(t: Json, k: string, ks: seq<string>)
    requires IsObject(t) && ks != []
    ensures GetNodeByPath(t, [k] + ks) == GetNodeByPath(Get(t, k), ks)
    ensures GetNodeByPath(t, [k] + ks[..|ks| - 1]) == GetNodeByPath(Get(t, k), ks[..|ks| - 1])
  {
    ConsPath(t, k, ks);
    ConsPath(t, k, ks[..|ks| - 1]);
  }

  /** After a set with `undefined` (a delete), looking the path up gives `undefined`. */
  lemma {:induction false} DeleteBack(s: Json, p: seq<Seg>)
    requires p != [] && SetAt(s, p, Undef).Ok?
    ensures GetNodeByPath(SetAt(s, p, Undef).value, SegKeys(p)) == Undef
    decreases |p|
  {
    var t := SetAt(s, p, Undef).value;
    var k := K(p[0]);
    SegKeysCons(p);
    ConsPath(t, k, SegKeys(p[1..]));
    if |p| >= 2 {
      Descend(s, p, Undef);
      var sub := Get(Slot(s, k, p[1]).value, k);
      DeleteBack(sub, p[1..]);
      SetAtShape(sub, p[1..], Undef);
    }
  }

  /** One level of the set: another key of the same node reads as before. */
  lemma OtherKey(s: Json, p: seq<Seg>, x: Json, k': string)
    requires p != [] && SetAt(s, p, x).Ok? && k' != K(p[0])
    ensures Get(SetAt(s, p, x).value, k') == Get(s, k')
  {
    var k := K(p[0]);
    if |p| == 1 {
      if x == Undef {
        DeletePropOther(s, k, k');
      } else {
        SetPropOther(s, k, x, k');
      }
    } else {
      Descend(s, p, x);
      var c := Slot(s, k, p[1]).value;
      if Get(s, k) == Undef {
        SetPropOther(s, k, Fresh(p[1]), k');
      }
      var sub := Get(c, k);
      if IsObject(sub) {
        SetPropOther(c, k, SetAt(sub, p[1..], x).value, k');
      }
    }
  }

  /** `v[k] = y` leaves every other key as it reads. */
  lemma SetPropOther(v: Json, k: string, y: Json, k': string)
    requires k != k' && SetProp(v, k, y).Ok?
    ensures Get(SetProp(v, k, y).value, k') == Get(v, k')
  {
    if v.Arr? && ParseIndex(k).Some? && ParseIndex(k').Some? {
      DigitsValueInjective(k, k');
    }
  }

  /** `delete v[k]` leaves every other key as it reads. */
  lemma DeletePropOther(v: Json, k: string, k': string)
    requires k != k' && DeleteProp(v, k).Ok?
    ensures Get(DeleteProp(v, k).value, k') == Get(v, k')
  {
    if IsObject(v) || v.Str? {
      if ParseIndex(k).Some? && ParseIndex(k').Some? {
        DigitsValueInjective(k, k');
      }
    }
  }

  /** A missing slot on the way is created as an array when the next segment
      is a number and as an object otherwise; an existing object or array on
      the way is reused, with the rest of the set applied inside it; an
      existing primitive on the way leaves the whole tree as it was. */
  lemma SlotCreated(s: Json, p: seq<Seg>, x: Json)
    requires |p| >= 2 && SetAt(s, p, x).Ok?
    ensures var t := SetAt(s, p, x).value;
      Get(s, K(p[0])) == Undef ==> IsObject(Get(t, K(p[0]))) && (Get(t, K(p[0])).Arr? <==> p[1].SIdx?)
    ensures IsObject(Get(s, K(p[0]))) ==>
      Get(SetAt(s, p, x).value, K(p[0])) == SetAt(Get(s, K(p[0])), p[1..], x).value
    ensures Get(s, K(p[0])) != Undef && !IsObject(Get(s, K(p[0]))) ==> SetAt(s, p, x).value == s
  {
    var k := K(p[0]);
    Descend(s, p, x);
    var sub := Get(Slot(s, k, p[1]).value, k);
    SetAtShape(sub, p[1..], x);
  }

  /** `undefined` has nothing below it. */
  lemma UndefPath(r: seq<string>)
    ensures GetNodeByPath(Undef, r) == Undef
  {
    if r != [] {
      FalsyStops(Undef, [], r);
      assert [] + r == r;
    }
  }

  /** A freshly created slot has nothing below it. */
  lemma FreshPath(next: Seg, r: seq<string>)
    requires r != []
    ensures GetNodeByPath(Fresh(next), r) == Undef
  {
    ConsPath(Fresh(next), r[0], r[1..]);
    assert [r[0]] + r[1..] == r;
    UndefPath(r[1..]);
  }

  /** Nodes off the path are unchanged: a lookup along any key path `q` that
      leaves the set's path at position `j` gives what it gave before. */
  lemma {:induction false} OffPath(s: Json, p: seq<Seg>, x: Json, q: seq<string>, j: nat)
    requires SetAt(s, p, x).Ok? && j < |p| && j < |q|
    requires (forall i :: 0 <= i < j ==> q[i] == K(p[i])) && q[j] != K(p[j])
    ensures GetNodeByPath(SetAt(s, p, x).value, q) == GetNodeByPath(s, q)
    decreases j
  {
    assert q == [q[0]] + q[1..];
    if j == 0 {
      Beside(s, p, x, q[0], q[1..]);
    } else {
      var k := K(p[0]);
      Below(s, p, x, q[1..]);
      var sub := Get(Slot(s, k, p[1]).value, k);
      if IsObject(sub) {
        forall i | 0 <= i < j - 1 ensures q[1..][i] == K(p[1..][i]) {
          assert q[i + 1] == K(p[i + 1]);
        }
        assert q[1..][j - 1] != K(p[1..][j - 1]);
        OffPath(sub, p[1..], x, q[1..], j - 1);
      }
    }
  }

  /** A lookup that starts with another key than the set's first. */
  lemma Beside(s: Json, p: seq<Seg>, x: Json, k': string, r: seq<string>)
    requires p != [] && SetAt(s, p, x).Ok? && k' != K(p[0])
    ensures GetNodeByPath(SetAt(s, p, x).value, [k'] + r) == GetNodeByPath(s, [k'] + r)
  {
    ConsPath(SetAt(s, p, x).value, k', r);
    ConsPath(s, k', r);
    SetAtShape(s, p, x);
    OtherKey(s, p, x, k');
  }

  /** A lookup that starts with the set's first key continues in the slot the
      set went through; a freshly created slot reads like the missing one. */
  lemma Below(s: Json, p: seq<Seg>, x: Json, r: seq<string>)
    requires |p| >= 2 && SetAt(s, p, x).Ok? && r != []
    ensures var k := K(p[0]);
      var sub := Get(Slot(s, k, p[1]).value, k);
      && SetAt(sub, p[1..], x).Ok?
      && (IsObject(sub) ==>
           && GetNodeByPath(SetAt(s, p, x).value, [k] + r) == GetNodeByPath(SetAt(sub, p[1..], x).value, r)
           && GetNodeByPath(s, [k] + r) == GetNodeByPath(sub, r))
      && (!IsObject(sub) ==> SetAt(s, p, x).value == s)
  {
    var k := K(p[0]);
    Descend(s, p, x);
    ConsPath(SetAt(s, p, x).value, k, r);
    ConsPath(s, k, r);
    if Get(s, k) == Undef {
      FreshPath(p[1], r);
      UndefPath(r);
    }
  }

  // ---------------------------------------------------------------- sets below an object

  /** Every node along the key path `P`, and the node it ends at, is an object. */
  predicate ObjAt(s: Json, P: seq<string>)
    decreases |P|
  {
    s.Obj? && (P != [] ==> ObjAt(Lookup(s.fields, P[0]), P[1..]))
  }

  /** The entries of the object at `P`, which is what `getNodeByPath` finds there. */
  function NodeAt(s: Json, P: seq<string>): (fs: Fields)
    requires ObjAt(s, P)
    ensures GetNodeByPath(s, P) == Obj(fs)
    decreases |P|
  {
    if P == [] then s.fields
    else
      ConsPath(s, P[0], P[1..]);
      assert [P[0]] + P[1..] == P;
      NodeAt(Lookup(s.fields, P[0]), P[1..])
  }

  /** `s` with the object at `P` given the entries `fs`, everything else as it was. */
  function Graft(s: Json, P: seq<string>, fs: Fields): (r: Json)
    requires ObjAt(s, P)
    ensures ObjAt(r, P) && NodeAt(r, P) == fs
    decreases |P|
  {
    if P == [] then Obj(fs)
    else Obj(Put(s.fields, P[0], Graft(Lookup(s.fields, P[0]), P[1..], fs)))
  }

  /** A set of the key `k` in the object at `P` changes that object's entries
      and nothing else. */
  lemma {:induction false} GraftSet(s: Json, P: seq<string>, k: string, x: Json)
    requires ObjAt(s, P)
    ensures SetAt(s, SKeys(P + [k]), x) ==
      Ok(Graft(s, P, if x == Undef then Remove(NodeAt(s, P), k) else Put(NodeAt(s, P), k, x)))
    decreases |P|
  {
    var path := SKeys(P + [k]);
    if P != [] {
      assert path[1..] == SKeys(P[1..] + [k]);
      assert K(path[0]) == P[0];
      GraftSet(Lookup(s.fields, P[0]), P[1..], k, x);
      ObjStep(s, path, x);
    } else {
      assert path == [SKey(k)];
    }
  }

  /** One level of a set whose first key holds an object. */
  lemma ObjStep(s: Json, path: seq<Seg>, x: Json)
    requires s.Obj? && |path| >= 2 && Lookup(s.fields, K(path[0])).Obj?
    ensures var child := Lookup(s.fields, K(path[0]));
      SetAt(child, path[1..], x).Ok? ==>
        SetAt(s, path, x) == Ok(Obj(Put(s.fields, K(path[0]), SetAt(child, path[1..], x).value)))
  {
    assert Slot(s, K(path[0]), path[1]) == Ok(s);
  }

  /** A second graft at the same place replaces the first. */
  lemma {:induction false} GraftGraft(s: Json, P: seq<string>, a: Fields, b: Fields)
    requires ObjAt(s, P)
    ensures Graft(Graft(s, P, a), P, b) == Graft(s, P, b)
    decreases |P|
  {
    if P != [] {
      var child := Lookup(s.fields, P[0]);
      GraftGraft(child, P[1..], a, b);
      PutPut(s.fields, P[0], Graft(child, P[1..], a), Graft(child, P[1..], b));
    }
  }

  /** Two index keys with the same value are the same key. */
  lemma DigitsValueInjective(a: string, b: string)
    requires ParseIndex(a).Some? && ParseIndex(b).Some? && a != b
    ensures ParseIndex(a).value != ParseIndex(b).value
  {
    ParseIndexCanonical(a);
    ParseIndexCanonical(b);
  }
}
