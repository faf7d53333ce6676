/** `canonicalize` / `normalizeSchema`: the shape an imported UI schema is
    brought into before the generated one is merged over it. Every
    `ui:options` whose `typeof` is "object" is dissolved into its node: six
    presentation options come back as `ui:<name>` with their raw value, every
    other option comes back under its own name, canonicalised. */
module Canonical {
  import opened Wrappers
  import opened Strings
  import opened Json

  /** The option names written back as `ui:<name>` (and not recursed into). */
  predicate Lifted(k: string) {
    k == "description" || k == "help" || k == "title" || k == "placeholder" || k == "readonly" || k == "disabled"
  }

  /** `typeof v === "object"`, which also holds for `null`. */
  predicate TypeofObject(v: Json) {
    IsObject(v) || v.Null?
  }

  /** The key under which the option entry `k` is written into the node. */
  function OptionKey(k: string): string {
    if Lifted(k) then "ui:" + k else k
  }

  /** `canonicalize(v)`: arrays are mapped, objects rebuilt key by key into a
      fresh object, everything else returned as it is. */
  function Canonicalize(v: Json): (r: Json)
    ensures r.Obj? == v.Obj? && r.Arr? == v.Arr?
    ensures v.Arr? ==> |r.elems| == |v.elems|
    ensures !IsObject(v) ==> r == v
    decreases Size(v), 2
  {
    match v
    case Arr(es) => SizeArr(es); Arr(CanonElems(es))
    case Obj(fs) => SizeObj(fs); Obj(PutAll([], Writes(fs)))
    case _ => v
  }

  /** `normalizeSchema`, the name the import pipeline calls. */
  function NormalizeSchema(schema: Json): Json {
    Canonicalize(schema)
  }

  /** `es.map(canonicalize)`. */
  function CanonElems(es: seq<Json>): (r: seq<Json>)
    ensures |r| == |es|
    decreases EW(es), 4
  {
    if es == [] then []
    else CanonElems(es[..|es| - 1]) + [Canonicalize(es[|es| - 1])]
  }

  /** The assignments `newObj[…] = …` the `for…in` over the node's entries performs, in order. */
  function Writes(fs: Fields): (w: Fields)
    decreases FW(fs), 4
  {
    if fs == [] then []
    else Writes(fs[..|fs| - 1]) + EntryWrites(fs[|fs| - 1])
  }

  /** The assignments one entry of the node causes. */
  function EntryWrites(e: (string, Json)): (w: Fields)
    decreases Size(e.1), 3
  {
    if e.0 == "ui:options" && TypeofObject(e.1) then OptionWrites(e.1, |Entries(e.1)|)
    else [(e.0, Canonicalize(e.1))]
  }

  /** The assignments of the first `n` entries of an options value
      (an object, an array, or `null`, which has none). */
  function OptionWrites(x: Json, n: nat): (w: Fields)
    requires TypeofObject(x) && n <= |Entries(x)|
    ensures |w| == n
    decreases Size(x), 1, n
  {
    if n == 0 then []
    else
      var (k, ov) := Entries(x)[n - 1];
      OptionWrites(x, n - 1) + [(OptionKey(k), if Lifted(k) then ov else Canonicalize(ov))]
  }

  // ---------------------------------------------------------------- what the writes are

  /** Each element of an array is canonicalised in place. */
  lemma {:induction false} CanonElemsAt(es: seq<Json>, i: nat)
    requires i < |es|
    ensures CanonElems(es)[i] == Canonicalize(es[i])
    decreases |es|
  {
    if i < |es| - 1 {
      CanonElemsAt(es[..|es| - 1], i);
    }
  }

  /** The `i`-th option entry is written under its lifted or plain name. */
  lemma {:induction false} OptionWritesAt(x: Json, n: nat, i: nat)
    requires TypeofObject(x) && i < n <= |Entries(x)|
    ensures OptionWrites(x, n)[i] ==
      (OptionKey(Entries(x)[i].0), if Lifted(Entries(x)[i].0) then Entries(x)[i].1 else Canonicalize(Entries(x)[i].1))
    decreases n
  {
    if i < n - 1 {
      OptionWritesAt(x, n - 1, i);
    }
  }

  /** The writes of a node split along its entries. */
  lemma {:induction false} WritesAppend(a: Fields, b: Fields)
    ensures Writes(a + b) == Writes(a) + Writes(b)
    decreases |b|
  {
    if b == [] {
      assert a + b == a;
    } else {
      WritesAppend(a, b[..|b| - 1]);
      WritesAppendStep(a, b);
    }
  }

  /** The inductive step of `WritesAppend`, on the last entry of `b`. */
  lemma WritesAppendStep(a: Fields, b: Fields)
    requires b != [] && Writes(a + b[..|b| - 1]) == Writes(a) + Writes(b[..|b| - 1])
    ensures Writes(a + b) == Writes(a) + Writes(b)
  {
    var ab, init, last := a + b, b[..|b| - 1], b[|b| - 1];
    assert ab[..|ab| - 1] == a + init;
    assert ab[|ab| - 1] == last;
    WritesLast(ab);
    WritesLast(b);
    FieldsAssoc(Writes(a), Writes(init), EntryWrites(last));
  }

  /** Concatenation of assignment lists is associative. */
  lemma FieldsAssoc(x: Fields, y: Fields, z: Fields)
    ensures x + y + z == x + (y + z)
  {
  }

  /** The last entry's writes come last. */
  lemma WritesLast(fs: Fields)
    requires fs != []
    ensures Writes(fs) == Writes(fs[..|fs| - 1]) + EntryWrites(fs[|fs| - 1])
  {
  }

  /** A key that no entry writes is not written. */
  lemma {:induction false} WritesFree(fs: Fields, k: string)
    requires forall j :: 0 <= j < |fs| ==> k !in KeysOf(EntryWrites(fs[j]))
    ensures k !in KeysOf(Writes(fs))
    decreases |fs|
  {
    if fs != [] {
      var init := fs[..|fs| - 1];
      forall j | 0 <= j < |init| ensures k !in KeysOf(EntryWrites(init[j])) {
        assert init[j] == fs[j];
      }
      WritesFree(init, k);
      KeysOfAppend(Writes(init), EntryWrites(fs[|fs| - 1]));
    }
  }

  /** The canonical node holds, under `k`, the last write of entry `i` to `k`
      when no later entry writes `k`: later assignments win. */
  lemma EntryWins(fs: Fields, i: nat, k: string)
    requires i < |fs| && LastWrite(EntryWrites(fs[i]), k).Some?
    requires forall j :: i < j < |fs| ==> k !in KeysOf(EntryWrites(fs[j]))
    ensures Lookup(Canonicalize(Obj(fs)).fields, k) == LastWrite(EntryWrites(fs[i]), k).value
  {
    var pre, e, post := fs[..i], fs[i], fs[i + 1..];
    forall j | 0 <= j < |post| ensures k !in KeysOf(EntryWrites(post[j])) {
      assert post[j] == fs[i + 1 + j];
    }
    WritesFree(post, k);
    WritesAround(fs, i);
    LastOfThree(Writes(pre), EntryWrites(e), Writes(post), k);
    PutAllLast([], Writes(fs), k);
  }

  /** The writes of a node around its entry `i`. */
  lemma WritesAround(fs: Fields, i: nat)
    requires i < |fs|
    ensures Writes(fs) == Writes(fs[..i]) + EntryWrites(fs[i]) + Writes(fs[i + 1..])
  {
    var pre, e, post := fs[..i], fs[i], fs[i + 1..];
    SplitAt(fs, i);
    WritesAppend(pre + [e], post);
    WritesAppend(pre, [e]);
    WritesOne(e);
  }

  /** A list of entries around its entry `i`. */
  lemma SplitAt(fs: Fields, i: nat)
    requires i < |fs|
    ensures fs == fs[..i] + [fs[i]] + fs[i + 1..]
  {
  }

  /** A single entry writes what `EntryWrites` says. */
  lemma WritesOne(e: (string, Json))
    ensures Writes([e]) == EntryWrites(e)
  {
    WritesLast([e]);
    assert [e][..0] == [];
    assert [] + EntryWrites(e) == EntryWrites(e);
  }

  /** The last write to `k` in three runs of writes, when the middle one writes
      `k` and the last one does not. */
  lemma LastOfThree(a: Fields, b: Fields, c: Fields, k: string)
    requires LastWrite(b, k).Some? && k !in KeysOf(c)
    ensures LastWrite(a + b + c, k) == LastWrite(b, k)
  {
    LastWriteAppend(a + b, c, k);
    LastWriteAppend(a, b, k);
  }

  // ---------------------------------------------------------------- the promised shape

  /** An entry other than an object-valued `ui:options` comes back under its
      own key with its value canonicalised, unless a later entry writes that key. */
  lemma PlainEntry(fs: Fields, i: nat)
    requires i < |fs| && !(fs[i].0 == "ui:options" && TypeofObject(fs[i].1))
    requires forall j :: i < j < |fs| ==> fs[i].0 !in KeysOf(EntryWrites(fs[j]))
    ensures Lookup(Canonicalize(Obj(fs)).fields, fs[i].0) == Canonicalize(fs[i].1)
  {
    assert EntryWrites(fs[i]) == [(fs[i].0, Canonicalize(fs[i].1))];
    EntryWins(fs, i, fs[i].0);
  }

  /** One of the six presentation options of an object-valued `ui:options`
      comes back as `ui:<name>` holding the option's raw, uncanonicalised value. */
  lemma LiftedOption(fs: Fields, i: nat, ok: string)
    requires i < |fs| && fs[i].0 == "ui:options" && TypeofObject(fs[i].1)
    requires DistinctKeys(Entries(fs[i].1))
    requires Lifted(ok) && ok in Keys(fs[i].1) && "ui:" + ok !in Keys(fs[i].1)
    requires forall j :: i < j < |fs| ==> "ui:" + ok !in KeysOf(EntryWrites(fs[j]))
    ensures Lookup(Canonicalize(Obj(fs)).fields, "ui:" + ok) == Lookup(Entries(fs[i].1), ok)
  {
    var es := Entries(fs[i].1);
    var w := EntryWrites(fs[i]);
    KeyInIff(es, ok);
    var m :| 0 <= m < |es| && es[m].0 == ok;
    OptionWritesAt(fs[i].1, |es|, m);
    forall j | m < j < |w| ensures w[j].0 != w[m].0 {
      OptionWritesAt(fs[i].1, |es|, j);
      KeysOfIndex(es, j);
      if w[j].0 == w[m].0 && Lifted(es[j].0) {
        PrefixCancel(es[j].0, ok);
      }
    }
    LastWriteAt(w, m);
    LookupAt(es, m);
    EntryWins(fs, i, "ui:" + ok);
  }

  /** Any other option of an object-valued `ui:options` comes back under its
      own name, canonicalised. */
  lemma OtherOption(fs: Fields, i: nat, ok: string)
    requires i < |fs| && fs[i].0 == "ui:options" && TypeofObject(fs[i].1)
    requires DistinctKeys(Entries(fs[i].1))
    requires !Lifted(ok) && ok in Keys(fs[i].1) && !StartsWith(ok, "ui:")
    requires forall j :: i < j < |fs| ==> ok !in KeysOf(EntryWrites(fs[j]))
    ensures Lookup(Canonicalize(Obj(fs)).fields, ok) == Canonicalize(Lookup(Entries(fs[i].1), ok))
  {
    var es := Entries(fs[i].1);
    var w := EntryWrites(fs[i]);
    KeyInIff(es, ok);
    var m :| 0 <= m < |es| && es[m].0 == ok;
    OptionWritesAt(fs[i].1, |es|, m);
    forall j | m < j < |w| ensures w[j].0 != ok {
      OptionWritesAt(fs[i].1, |es|, j);
      if Lifted(es[j].0) {
        assert ("ui:" + es[j].0)[..3] == "ui:";
      }
    }
    LastWriteAt(w, m);
    LookupAt(es, m);
    EntryWins(fs, i, ok);
  }

  lemma PrefixCancel(a: string, b: string)
    requires "ui:" + a == "ui:" + b
    ensures a == b
  {
    assert ("ui:" + a)[3..] == a && ("ui:" + b)[3..] == b;
  }

  /** A node whose `ui:options` entries are all objects, arrays or `null`
      without a `ui:options` option of their own comes back without `ui:options`. */
  lemma OptionsRemoved(fs: Fields)
    requires forall i :: 0 <= i < |fs| && fs[i].0 == "ui:options" ==>
      TypeofObject(fs[i].1) && "ui:options" !in Keys(fs[i].1)
    ensures "ui:options" !in KeysOf(Canonicalize(Obj(fs)).fields)
  {
    forall j | 0 <= j < |fs| ensures "ui:options" !in KeysOf(EntryWrites(fs[j])) {
      EntryNotOptions(fs[j]);
    }
    WritesFree(fs, "ui:options");
    PutAllKeys([], Writes(fs));
  }

  lemma EntryNotOptions(e: (string, Json))
    requires e.0 == "ui:options" ==> TypeofObject(e.1) && "ui:options" !in Keys(e.1)
    ensures "ui:options" !in KeysOf(EntryWrites(e))
  {
    var w := EntryWrites(e);
    if e.0 == "ui:options" {
      var es := Entries(e.1);
      forall i | 0 <= i < |w| ensures w[i].0 != "ui:options" {
        OptionWritesAt(e.1, |es|, i);
        KeysOfIndex(es, i);
        OptionKeyNotOptions(es[i].0);
      }
      KeyInIff(w, "ui:options");
    } else {
      assert KeysOf(w) == [e.0];
    }
  }

  lemma OptionKeyNotOptions(k: string)
    requires k != "ui:options"
    ensures OptionKey(k) != "ui:options"
  {
    if Lifted(k) {
      assert |"ui:" + k| != |"ui:options"|;
    }
  }

  // ---------------------------------------------------------------- trees without options

  /** No object level holds a `ui:options` whose `typeof` is "object". */
  predicate NoObjectOptions(v: Json)
    decreases v
  {
    match v
    case Obj(fs) =>
      forall i :: 0 <= i < |fs| ==> !(fs[i].0 == "ui:options" && TypeofObject(fs[i].1)) && NoObjectOptions(fs[i].1)
    case Arr(es) => forall i :: 0 <= i < |es| ==> NoObjectOptions(es[i])
    case _ => true
  }

  /** A tree with no `ui:options` to dissolve comes back deep-equal. */
  lemma {:induction false} Unchanged(v: Json)
    requires WF(v) && NoObjectOptions(v)
    ensures Canonicalize(v) == v
    decreases Size(v), 2
  {
    match v
    case Arr(es) => SizeArr(es); ElemsUnchanged(es);
    case Obj(fs) => SizeObj(fs); FieldsUnchanged(fs); PutAllFresh(fs);
    case _ =>
  }

  lemma {:induction false} ElemsUnchanged(es: seq<Json>)
    requires forall i :: 0 <= i < |es| ==> WF(es[i]) && NoObjectOptions(es[i])
    ensures CanonElems(es) == es
    decreases EW(es), 4
  {
    if es != [] {
      ElemsUnchanged(es[..|es| - 1]);
      Unchanged(es[|es| - 1]);
      SplitLast(es);
    }
  }

  lemma {:induction false} FieldsUnchanged(fs: Fields)
    requires forall i :: 0 <= i < |fs| ==>
      WF(fs[i].1) && !(fs[i].0 == "ui:options" && TypeofObject(fs[i].1)) && NoObjectOptions(fs[i].1)
    ensures Writes(fs) == fs
    decreases FW(fs), 4
  {
    if fs != [] {
      FieldsUnchanged(fs[..|fs| - 1]);
      Unchanged(fs[|fs| - 1].1);
      SplitLast(fs);
    }
  }
}
