/** `cleanUiSchema`: the copy of a UI schema the form renders, without the
    editor's bookkeeping key `ui:fieldType` and without entries that carry
    no setting. */
module Cleaner {
  import opened Json

  /** A cleaned value the cleaner leaves out of its parent object:
      "", false, "off", "false", and an object or array with no keys. */
  predicate Dropped(c: Json) {
    c == Str("") || c == Bool(false) || c == Str("off") || c == Str("false") || (IsObject(c) && Keys(c) == [])
  }

  function Clean(v: Json): (r: Json)
    ensures r.Undef? <==> v.Undef?
    ensures r.Obj? <==> v.Obj?
    ensures r.Arr? <==> v.Arr?
    decreases Size(v), 1
  {
    match v
    case Arr(es) => SizeArr(es); Arr(CleanElems(es))
    case Obj(fs) => SizeObj(fs); Obj(CleanFields(fs))
    case _ => v
  }

  /** `arr.map(cleanUiSchema).filter(v => v !== undefined)`. */
  function CleanElems(es: seq<Json>): (r: seq<Json>)
    ensures |r| <= |es|
    decreases EW(es), 2
  {
    if es == [] then []
    else
      var rest := CleanElems(es[..|es| - 1]);
      var c := Clean(es[|es| - 1]);
      if c.Undef? then rest else rest + [c]
  }

  /** The `forEach` over the entries, writing each kept entry into a fresh object. */
  function CleanFields(fs: Fields): (r: Fields)
    ensures DistinctKeys(r)
    ensures forall e :: e in r ==> e.0 != "ui:fieldType" && !Dropped(e.1)
    decreases FW(fs), 2
  {
    if fs == [] then []
    else
      var acc := CleanFields(fs[..|fs| - 1]);
      var (k, x) := fs[|fs| - 1];
      if k == "ui:fieldType" then acc
      else
        var c := Clean(x);
        if Dropped(c) then acc
        else
          PutKeepsDistinct(acc, k, c);
          PutEntries(acc, k, c);
          Put(acc, k, c)
  }

  /** What the cleaned object holds under key `k`: nothing for `ui:fieldType`
      or a dropped value, otherwise the cleaned value. In particular `null`,
      `0` and `true` are kept. */
  lemma {:induction false} CleanFieldsLookup(fs: Fields, k: string)
    requires DistinctKeys(fs)
    ensures var c := Clean(Lookup(fs, k));
      Lookup(CleanFields(fs), k) ==
        if k == "ui:fieldType" || k !in KeysOf(fs) || Dropped(c) then Undef else c
    ensures var c := Clean(Lookup(fs, k));
      k in KeysOf(CleanFields(fs)) <==> k != "ui:fieldType" && k in KeysOf(fs) && !Dropped(c)
    decreases |fs|
  {
    if fs != [] {
      var init := fs[..|fs| - 1];
      var (k', x) := fs[|fs| - 1];
      KeysOfSnoc(fs);
      DistinctSnoc(fs);
      CleanFieldsLookup(init, k);
      if k' != "ui:fieldType" && !Dropped(Clean(x)) {
        PutKeyIn(CleanFields(init), k', Clean(x), k);
      }
      if k == k' {
        LookupLast(fs);
      } else {
        LookupInit(fs, k);
      }
    }
  }

  /** A tree the cleaner has nothing left to remove from. */
  predicate IsClean(v: Json)
    decreases v
  {
    match v
    case Arr(es) => forall i :: 0 <= i < |es| ==> es[i] != Undef && IsClean(es[i])
    case Obj(fs) => forall i :: 0 <= i < |fs| ==> fs[i].0 != "ui:fieldType" && !Dropped(fs[i].1) && IsClean(fs[i].1)
    case _ => true
  }

  /** Cleaning removes everything it is meant to, at every level, and leaves distinct keys. */
  lemma {:induction false} CleanIsClean(v: Json)
    ensures IsClean(Clean(v)) && WF(Clean(v))
    decreases Size(v), 1
  {
    match v
    case Arr(es) => SizeArr(es); CleanElemsClean(es);
    case Obj(fs) => SizeObj(fs); CleanFieldsClean(fs);
    case _ =>
  }

  lemma {:induction false} CleanElemsClean(es: seq<Json>)
    ensures forall i :: 0 <= i < |CleanElems(es)| ==>
      CleanElems(es)[i] != Undef && IsClean(CleanElems(es)[i]) && WF(CleanElems(es)[i])
    decreases EW(es), 2
  {
    if es != [] {
      CleanElemsClean(es[..|es| - 1]);
      CleanIsClean(es[|es| - 1]);
    }
  }

  lemma {:induction false} CleanFieldsClean(fs: Fields)
    ensures forall e :: e in CleanFields(fs) ==> IsClean(e.1) && WF(e.1)
    decreases FW(fs), 2
  {
    if fs != [] {
      var acc := CleanFields(fs[..|fs| - 1]);
      CleanFieldsClean(fs[..|fs| - 1]);
      CleanIsClean(fs[|fs| - 1].1);
      PutEntries(acc, fs[|fs| - 1].0, Clean(fs[|fs| - 1].1));
    }
  }

  /** A clean tree with distinct keys is its own cleaning. */
  lemma {:induction false} CleanOfClean(v: Json)
    requires IsClean(v) && WF(v)
    ensures Clean(v) == v
    decreases Size(v), 1
  {
    match v
    case Arr(es) => SizeArr(es); CleanElemsOfClean(es);
    case Obj(fs) => SizeObj(fs); CleanFieldsOfClean(fs);
    case _ =>
  }

  lemma {:induction false} CleanElemsOfClean(es: seq<Json>)
    requires forall i :: 0 <= i < |es| ==> es[i] != Undef && IsClean(es[i]) && WF(es[i])
    ensures CleanElems(es) == es
    decreases EW(es), 2
  {
    if es != [] {
      var init := es[..|es| - 1];
      forall i | 0 <= i < |init| ensures init[i] != Undef && IsClean(init[i]) && WF(init[i]) {
        assert init[i] == es[i];
      }
      CleanElemsOfClean(init);
      CleanOfClean(es[|es| - 1]);
      SplitLast(es);
    }
  }

  /** The entries of a clean object: kept keys, kept values, clean below. */
  predicate CleanEntries(fs: Fields) {
    forall i :: 0 <= i < |fs| ==> fs[i].0 != "ui:fieldType" && !Dropped(fs[i].1) && IsClean(fs[i].1) && WF(fs[i].1)
  }

  lemma CleanEntriesInit(fs: Fields)
    requires fs != [] && CleanEntries(fs)
    ensures CleanEntries(fs[..|fs| - 1])
  {
    var init := fs[..|fs| - 1];
    forall i | 0 <= i < |init|
      ensures init[i].0 != "ui:fieldType" && !Dropped(init[i].1) && IsClean(init[i].1) && WF(init[i].1)
    {
      assert init[i] == fs[i];
    }
  }

  /** The last step of `CleanFields` on a clean list whose front is already its own cleaning. */
  lemma CleanFieldsLast(fs: Fields)
    requires fs != [] && DistinctKeys(fs)
    requires var last := fs[|fs| - 1]; last.0 != "ui:fieldType" && !Dropped(last.1) && Clean(last.1) == last.1
    requires CleanFields(fs[..|fs| - 1]) == fs[..|fs| - 1]
    ensures CleanFields(fs) == fs
  {
    var init, last := fs[..|fs| - 1], fs[|fs| - 1];
    DistinctSnoc(fs);
    assert CleanFields(fs) == Put(init, last.0, last.1);
    PutNew(init, last.0, last.1);
    SplitLast(fs);
  }

  lemma {:induction false} CleanFieldsOfClean(fs: Fields)
    requires DistinctKeys(fs) && CleanEntries(fs)
    ensures CleanFields(fs) == fs
    decreases FW(fs), 2
  {
    if fs != [] {
      DistinctSnoc(fs);
      CleanEntriesInit(fs);
      CleanFieldsOfClean(fs[..|fs| - 1]);
      CleanOfClean(fs[|fs| - 1].1);
      CleanFieldsLast(fs);
    }
  }

  /** Cleaning twice is cleaning once. */
  lemma Idempotent(v: Json)
    ensures Clean(Clean(v)) == Clean(v)
  {
    CleanIsClean(v);
    CleanOfClean(Clean(v));
  }
}
