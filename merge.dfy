/** `deepMerge(target, source)`: writes every key of `source` into `target`,
    replacing arrays and scalars and merging objects key by key, and returns
    `target`. The import pipeline merges the generated UI schema (the source)
    over the existing one (the target), so generated values win. */
module Merge {
  import opened Wrappers
  import opened Strings
  import opened Json

  /** What `target` holds once `deepMerge(target, source)` returns, or the error it throws. */
  function Merged(target: Json, source: Json): (r: Result<Json, JsError>)
    decreases Size(source), 2
  {
    // Object.keys(undefined) and Object.keys(null) throw
    if source.Undef? || source.Null? then Failure(TypeError)
    else MergeKeys(target, source, |Entries(source)|)
  }

  /** The target after the first `n` iterations of the `forEach` over `Object.keys(source)`. */
  function MergeKeys(target: Json, source: Json, n: nat): (r: Result<Json, JsError>)
    requires n <= |Entries(source)|
    decreases Size(source), 1, n
  {
    if n == 0 then Ok(target)
    else
      var t :- MergeKeys(target, source, n - 1);
      MergeStep(t, source, n - 1)
  }

  /** Iteration `i`: `source[key]` written into the target `t`. */
  function MergeStep(t: Json, source: Json, i: nat): (r: Result<Json, JsError>)
    requires i < |Entries(source)|
    decreases Size(source), 0
  {
    var (k, sv) := Entries(source)[i];
    if sv.Arr? then SetProp(t, k, sv)
    else if Truthy(sv) && IsObject(sv) then
      assert IsObject(source);  // the entries of a string are strings
      var tv :- Read(t, k);
      if !Truthy(tv) || !IsObject(tv) then
        var t1 :- SetProp(t, k, Obj([]));
        var merged :- Merged(Obj([]), sv);
        SetProp(t1, k, merged)
      else
        var merged :- Merged(tv, sv);
        SetProp(t, k, merged)
    else SetProp(t, k, sv)
  }

  /** `deepMerge(target, source)`, iterating over the source's keys. */
  method DeepMerge(target: Json, source: Json) returns (r: Result<Json, JsError>)
    ensures r == Merged(target, source)
    decreases Size(source), 2
  {
    if source.Undef? || source.Null? {
      return Failure(TypeError);
    }
    var keys := Entries(source);
    var t := target;
    var thrown: Option<JsError> := None;
    var i := 0;
    while i < |keys| && thrown.None?
      invariant 0 <= i <= |keys|
      invariant MergeKeys(target, source, i) == if thrown.None? then Ok(t) else Failure(thrown.value)
    {
      var step := MergeKey(t, source, i);
      if step.Failure? {
        thrown := Some(step.error);
      } else {
        t := step.value;
      }
      i := i + 1;
    }
    if thrown.Some? {
      MergeKeysStop(target, source, i, |keys|);
      return Failure(thrown.value);
    }
    return Ok(t);
  }

  /** One iteration of the `forEach`. */
  method MergeKey(t: Json, source: Json, i: nat) returns (r: Result<Json, JsError>)
    requires i < |Entries(source)|
    ensures r == MergeStep(t, source, i)
    decreases Size(source), 1
  {
    var (k, sv) := Entries(source)[i];
    if sv.Arr? {
      r := SetProp(t, k, sv);
    } else if Truthy(sv) && IsObject(sv) {
      assert IsObject(source);
      var tv := Read(t, k);
      if tv.Failure? {
        return Failure(tv.error);
      }
      var base := tv.value;
      var t1 := t;
      if !Truthy(base) || !IsObject(base) {
        var emptied := SetProp(t, k, Obj([]));
        if emptied.Failure? {
          return emptied;
        }
        t1, base := emptied.value, Obj([]);
      }
      var merged := DeepMerge(base, sv);
      if merged.Failure? {
        return merged;
      }
      r := SetProp(t1, k, merged.value);
    } else {
      r := SetProp(t, k, sv);
    }
  }

  /** Once an iteration throws, the later ones do not run. */
  lemma {:induction false} MergeKeysStop(target: Json, source: Json, i: nat, n: nat)
    requires i <= n <= |Entries(source)| && MergeKeys(target, source, i).Failure?
    ensures MergeKeys(target, source, n) == MergeKeys(target, source, i)
    decreases n
  {
    if i < n {
      MergeKeysStop(target, source, i, n - 1);
    }
  }

  // ---------------------------------------------------------------- merging into an object never throws

  /** Merging into an object or array succeeds whenever the source has keys to list,
      and the target stays an object (or an array). */
  lemma {:induction false} MergedIntoObject(t: Json, s: Json)
    requires IsObject(t) && !s.Undef? && !s.Null?
    ensures Merged(t, s).Ok?
    ensures Merged(t, s).value.Obj? == t.Obj? && Merged(t, s).value.Arr? == t.Arr?
    decreases Size(s), 2
  {
    MergeKeysIntoObject(t, s, |Entries(s)|);
  }

  lemma {:induction false} MergeKeysIntoObject(t: Json, s: Json, n: nat)
    requires IsObject(t) && n <= |Entries(s)|
    ensures MergeKeys(t, s, n).Ok?
    ensures MergeKeys(t, s, n).value.Obj? == t.Obj? && MergeKeys(t, s, n).value.Arr? == t.Arr?
    decreases Size(s), 1, n
  {
    if n > 0 {
      MergeKeysIntoObject(t, s, n - 1);
      StepIntoObject(MergeKeys(t, s, n - 1).value, s, n - 1);
    }
  }

  lemma StepIntoObject(t: Json, s: Json, i: nat)
    requires IsObject(t) && i < |Entries(s)|
    ensures MergeStep(t, s, i).Ok?
    ensures MergeStep(t, s, i).value.Obj? == t.Obj? && MergeStep(t, s, i).value.Arr? == t.Arr?
    decreases Size(s), 0
  {
    var (k, sv) := Entries(s)[i];
    if !sv.Arr? && Truthy(sv) && IsObject(sv) {
      assert IsObject(s);
      var tv := Get(t, k);
      if !Truthy(tv) || !IsObject(tv) {
        MergedIntoObject(Obj([]), sv);
      } else {
        MergedIntoObject(tv, sv);
      }
    }
  }

  // ---------------------------------------------------------------- merging two objects

  /** The value a key of the source ends up with, given the target's value `tv`
      and the source's `sv`: arrays and scalars replace, objects merge into the
      target's object (or into a fresh `{}` when the target has none). */
  function Combined(tv: Json, sv: Json): Json {
    if sv.Arr? then sv
    else if Truthy(sv) && IsObject(sv) then
      var base := if !Truthy(tv) || !IsObject(tv) then Obj([]) else tv;
      MergedIntoObject(base, sv);
      Merged(base, sv).value
    else sv
  }

  /** One iteration on an object target overwrites the key with the combined value. */
  lemma StepObject(t: Fields, s: Json, i: nat)
    requires i < |Entries(s)|
    ensures MergeStep(Obj(t), s, i) ==
      Ok(Obj(Put(t, Entries(s)[i].0, Combined(Lookup(t, Entries(s)[i].0), Entries(s)[i].1))))
  {
    var (k, sv) := Entries(s)[i];
    if !sv.Arr? && Truthy(sv) && IsObject(sv) {
      var tv := Lookup(t, k);
      if !Truthy(tv) || !IsObject(tv) {
        StepFresh(t, s, i);
      } else {
        StepDeep(t, s, i);
      }
    }
  }

  /** An object source value and no object in the target: `{}` is put first and merged into. */
  lemma StepFresh(t: Fields, s: Json, i: nat)
    requires i < |Entries(s)|
    requires var (k, sv) := Entries(s)[i];
      !sv.Arr? && Truthy(sv) && IsObject(sv) && (!Truthy(Lookup(t, k)) || !IsObject(Lookup(t, k)))
    ensures MergeStep(Obj(t), s, i) ==
      Ok(Obj(Put(t, Entries(s)[i].0, Combined(Lookup(t, Entries(s)[i].0), Entries(s)[i].1))))
  {
    var (k, sv) := Entries(s)[i];
    MergedIntoObject(Obj([]), sv);
    PutPut(t, k, Obj([]), Merged(Obj([]), sv).value);
  }

  /** An object source value over an object in the target: the two are merged. */
  lemma StepDeep(t: Fields, s: Json, i: nat)
    requires i < |Entries(s)|
    requires var (k, sv) := Entries(s)[i];
      !sv.Arr? && Truthy(sv) && IsObject(sv) && Truthy(Lookup(t, k)) && IsObject(Lookup(t, k))
    ensures MergeStep(Obj(t), s, i) ==
      Ok(Obj(Put(t, Entries(s)[i].0, Combined(Lookup(t, Entries(s)[i].0), Entries(s)[i].1))))
  {
    var (k, sv) := Entries(s)[i];
    MergedIntoObject(Lookup(t, k), sv);
  }

  /** What key `k` of `r` looks like once the first `n` source keys are merged into `t`. */
  predicate MergedUpTo(t: Fields, s: Fields, n: nat, r: Fields, k: string)
    requires n <= |s|
  {
    && (k in KeysOf(r) <==> k in KeysOf(t) || k in KeysOf(s[..n]))
    && Lookup(r, k) == if k in KeysOf(s[..n]) then Combined(Lookup(t, k), Lookup(s, k)) else Lookup(t, k)
  }

  /** The object after the first `n` source keys: those keys hold combined values, the rest the target's. */
  lemma {:induction false} MergeKeysObject(t: Fields, s: Fields, n: nat, k: string)
    requires DistinctKeys(s) && n <= |s|
    ensures MergeKeys(Obj(t), Obj(s), n).Ok? && MergeKeys(Obj(t), Obj(s), n).value.Obj?
    ensures MergedUpTo(t, s, n, MergeKeys(Obj(t), Obj(s), n).value.fields, k)
    decreases n
  {
    MergeKeysIntoObject(Obj(t), Obj(s), n);
    if n > 0 {
      MergeKeysIntoObject(Obj(t), Obj(s), n - 1);
      MergeKeysObject(t, s, n - 1, k);
      MergeKeysObject(t, s, n - 1, s[n - 1].0);
      MergeKeysStep(t, s, n, MergeKeys(Obj(t), Obj(s), n - 1).value.fields, k);
    }
  }

  /** The inductive step of `MergeKeysObject`: key `n - 1` of the source is put. */
  lemma MergeKeysStep(t: Fields, s: Fields, n: nat, prev: Fields, k: string)
    requires DistinctKeys(s) && 0 < n <= |s|
    requires MergeKeys(Obj(t), Obj(s), n - 1) == Ok(Obj(prev))
    requires MergedUpTo(t, s, n - 1, prev, k) && MergedUpTo(t, s, n - 1, prev, s[n - 1].0)
    ensures MergeKeys(Obj(t), Obj(s), n).Ok? && MergeKeys(Obj(t), Obj(s), n).value.Obj?
    ensures MergedUpTo(t, s, n, MergeKeys(Obj(t), Obj(s), n).value.fields, k)
  {
    var (k', sv) := s[n - 1];
    StepObject(prev, Obj(s), n - 1);
    MergeKeysSnoc(Obj(t), Obj(s), n, Obj(prev));
    PutKeyIn(prev, k', Combined(Lookup(prev, k'), sv), k);
    PrefixSnoc(s, n);
  }

  /** One more entry of a list with distinct keys: its key is new and maps to its value. */
  lemma PrefixSnoc(s: Fields, n: nat)
    requires DistinctKeys(s) && 0 < n <= |s|
    ensures KeysOf(s[..n]) == KeysOf(s[..n - 1]) + [s[n - 1].0]
    ensures s[n - 1].0 !in KeysOf(s[..n - 1]) && Lookup(s, s[n - 1].0) == s[n - 1].1
  {
    assert s[..n][..n - 1] == s[..n - 1];
    KeysOfSnoc(s[..n]);
    DistinctSnoc(s[..n]);
    LookupAt(s, n - 1);
  }

  /** `deepMerge` of two objects: the keys are those of both; a key only in the
      target keeps its value; a key of the source gets the source's array or
      scalar, or the recursive merge of the two objects. */
  lemma MergedObject(t: Fields, s: Fields, k: string)
    requires DistinctKeys(s)
    ensures Merged(Obj(t), Obj(s)).Ok? && Merged(Obj(t), Obj(s)).value.Obj?
    ensures var r := Merged(Obj(t), Obj(s)).value.fields;
      (k in KeysOf(r) <==> k in KeysOf(t) || k in KeysOf(s)) &&
      (k !in KeysOf(s) ==> Lookup(r, k) == Lookup(t, k)) &&
      (k in KeysOf(s) ==> Lookup(r, k) == Combined(Lookup(t, k), Lookup(s, k)))
  {
    MergeKeysObject(t, s, |s|, k);
    assert s[..|s|] == s;
  }

  // ---------------------------------------------------------------- merging a value into itself

  /** Merging an object (or array) with an equal copy of itself changes nothing. */
  lemma {:induction false} MergeSelf(v: Json)
    requires WF(v) && IsObject(v)
    ensures Merged(v, v) == Ok(v)
    decreases Size(v), 2
  {
    MergeKeysSelf(v, |Entries(v)|);
  }

  lemma {:induction false} MergeKeysSelf(v: Json, n: nat)
    requires WF(v) && IsObject(v) && n <= |Entries(v)|
    ensures MergeKeys(v, v, n) == Ok(v)
    decreases Size(v), 1, n
  {
    if n > 0 {
      MergeKeysSelf(v, n - 1);
      StepSelf(v, n - 1);
      MergeKeysSnoc(v, v, n, v);
    }
  }

  /** Once the first `n - 1` iterations give `t`, iteration `n - 1` runs on `t`. */
  lemma MergeKeysSnoc(target: Json, source: Json, n: nat, t: Json)
    requires 0 < n <= |Entries(source)| && MergeKeys(target, source, n - 1) == Ok(t)
    ensures MergeKeys(target, source, n) == MergeStep(t, source, n - 1)
  {
  }

  lemma StepSelf(v: Json, i: nat)
    requires WF(v) && IsObject(v) && i < |Entries(v)|
    ensures MergeStep(v, v, i) == Ok(v)
    decreases Size(v), 0
  {
    var (k, x) := Entries(v)[i];
    match v
    case Obj(fs) =>
      LookupAt(fs, i);
      PutSame(fs, i);
      if x.Obj? {
        MergeSelf(x);
      }
    case Arr(es) =>
      ParseNatToString(i);
      assert es[i := es[i]] == es;
      if x.Obj? {
        MergeSelf(x);
      }
  }
}
