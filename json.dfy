/** JavaScript values as the code sees them after `JSON.parse`, plus `undefined`.
    Objects are ORDERED key lists: `Object.keys`, `for…in` and spreads follow
    insertion order, and a write to an existing key keeps that key's position.
    Numbers are integers. */
module Json {
  import opened Wrappers
  import opened Strings

  datatype Json =
    | Undef                          // `undefined`, read from a missing key or stored
    | Null
    | Bool(b: bool)
    | Num(n: int)
    | Str(s: string)
    | Arr(elems: seq<Json>)
    | Obj(fields: seq<(string, Json)>)

  type Fields = seq<(string, Json)>

  /** What a thrown exception carries: the built-in error kinds and `new Error(message)`. */
  datatype JsError = TypeError | RangeError | SyntaxError | Error(message: string)

  /** `${err}` for a thrown error; the engine's message after a built-in error's name is not modelled. */
  function ErrorText(e: JsError): string {
    match e
    case TypeError => "TypeError"
    case RangeError => "RangeError"
    case SyntaxError => "SyntaxError"
    case Error(m) => "Error: " + m
  }

  /** JavaScript truthiness: `undefined`, `null`, `false`, `0` and `""` are falsy. */
  predicate Truthy(v: Json) {
    match v
    case Undef => false
    case Null => false
    case Bool(b) => b
    case Num(n) => n != 0
    case Str(s) => s != ""
    case _ => true
  }

  /** `typeof v === "object" && v !== null`. */
  predicate IsObject(v: Json) {
    v.Obj? || v.Arr?
  }

  /** `a || b`. */
  function Or(a: Json, b: Json): (r: Json)
    ensures Truthy(a) ==> r == a
    ensures !Truthy(a) ==> r == b
  {
    if Truthy(a) then a else b
  }

  /** `Number(v)` (ToNumber) for the values JSON can hold, numbers being integers;
      `None` is NaN. A string converts through `StringToNumber`. An array converts
      through the text of `join(",")`: `[]` gives 0, `[x]` gives what `x`'s text
      gives, and two or more elements put a comma in the text, which is NaN. An
      object's text "[object Object]" is NaN. */
  function ToNumber(v: Json): (r: Option<int>)
    ensures v.Num? ==> r == Some(v.n)
    ensures v.Str? ==> r == StringToNumber(v.s)
    ensures v.Undef? || v.Obj? || (v.Arr? && |v.elems| >= 2) ==> r.None?
    ensures v.Arr? && v.elems == [] ==> r == Some(0)
    decreases v, 0
  {
    match v
    case Undef => None
    case Null => Some(0)
    case Bool(b) => Some(if b then 1 else 0)
    case Num(n) => Some(n)
    case Str(s) => StringToNumber(s)
    case Arr(es) => if |es| == 0 then Some(0) else if |es| == 1 then ElemToNumber(es[0]) else None
    case Obj(_) => None
  }

  /** ToNumber of the text `join` writes for one array element: `undefined` and
      `null` write "", a boolean "true" or "false", an object "[object Object]";
      numbers, strings and arrays write what `String` gives. */
  function ElemToNumber(e: Json): (r: Option<int>)
    ensures e.Undef? || e.Null? ==> r == Some(0)
    ensures e.Bool? || e.Obj? ==> r.None?
    ensures e.Num? || e.Str? || e.Arr? ==> r == ToNumber(e)
    decreases e, 1
  {
    match e
    case Undef => Some(0)
    case Null => Some(0)
    case Bool(_) => None
    case Obj(_) => None
    case _ => ToNumber(e)
  }

  /** `Number(String(i))`, `Number([i])` and `Number([String(i)])` are all `i`. */
  lemma NumberOfIntText(i: int)
    ensures ToNumber(Str(IntToString(i))) == Some(i)
    ensures ToNumber(Arr([Num(i)])) == Some(i)
    ensures ToNumber(Arr([Str(IntToString(i))])) == Some(i)
  {
    StringToNumberOfInt(i);
  }

  // ---------------------------------------------------------------- sizes

  /** A measure that strictly decreases from a container to anything stored in it. */
  function Size(v: Json): nat
    decreases v, 1
  {
    match v
    case Obj(fs) => 1 + FieldsSize(v, |fs|)
    case Arr(es) => 1 + ElemsSize(v, |es|)
    case _ => 1
  }

  function FieldsSize(v: Json, n: nat): nat
    requires v.Obj? && n <= |v.fields|
    decreases v, 0, n
  {
    if n == 0 then 0 else FieldsSize(v, n - 1) + Size(v.fields[n - 1].1)
  }

  function ElemsSize(v: Json, n: nat): nat
    requires v.Arr? && n <= |v.elems|
    decreases v, 0, n
  {
    if n == 0 then 0 else ElemsSize(v, n - 1) + Size(v.elems[n - 1])
  }

  /** The total size of the values of a field list. */
  function FW(fs: Fields): nat {
    if fs == [] then 0 else FW(fs[..|fs| - 1]) + Size(fs[|fs| - 1].1)
  }

  /** The total size of the elements of a list. */
  function EW(es: seq<Json>): nat {
    if es == [] then 0 else EW(es[..|es| - 1]) + Size(es[|es| - 1])
  }

  lemma {:induction false} FieldsSizeIsFW(fs: Fields, n: nat)
    requires n <= |fs|
    ensures FieldsSize(Obj(fs), n) == FW(fs[..n])
  {
    if n > 0 {
      FieldsSizeIsFW(fs, n - 1);
      assert fs[..n][..n - 1] == fs[..n - 1];
    }
  }

  lemma {:induction false} ElemsSizeIsEW(es: seq<Json>, n: nat)
    requires n <= |es|
    ensures ElemsSize(Arr(es), n) == EW(es[..n])
  {
    if n > 0 {
      ElemsSizeIsEW(es, n - 1);
      assert es[..n][..n - 1] == es[..n - 1];
    }
  }

  lemma SizeObj(fs: Fields)
    ensures Size(Obj(fs)) == 1 + FW(fs)
  {
    FieldsSizeIsFW(fs, |fs|);
    assert fs[..|fs|] == fs;
  }

  lemma SizeArr(es: seq<Json>)
    ensures Size(Arr(es)) == 1 + EW(es)
  {
    ElemsSizeIsEW(es, |es|);
    assert es[..|es|] == es;
  }

  lemma {:induction false} FWBoundsField(fs: Fields, i: nat)
    requires i < |fs|
    ensures Size(fs[i].1) <= FW(fs)
  {
    if i < |fs| - 1 {
      FWBoundsField(fs[..|fs| - 1], i);
    }
  }

  lemma {:induction false} EWBoundsElem(es: seq<Json>, i: nat)
    requires i < |es|
    ensures Size(es[i]) <= EW(es)
  {
    if i < |es| - 1 {
      EWBoundsElem(es[..|es| - 1], i);
    }
  }

  lemma FieldSmaller(fs: Fields, i: nat)
    requires i < |fs|
    ensures Size(fs[i].1) < Size(Obj(fs))
  {
    FWBoundsField(fs, i);
    SizeObj(fs);
  }

  lemma ElemSmaller(es: seq<Json>, i: nat)
    requires i < |es|
    ensures Size(es[i]) < Size(Arr(es))
  {
    EWBoundsElem(es, i);
    SizeArr(es);
  }

  // ---------------------------------------------------------------- key lists

  /** A non-empty list is its front followed by its last element. */
  lemma SplitLast<T>(s: seq<T>)
    requires s != []
    ensures s[..|s| - 1] + [s[|s| - 1]] == s
  {
    assert [s[|s| - 1]] == s[|s| - 1..];
  }

  /** The keys of a field list, in order. */
  function KeysOf(fs: Fields): (ks: seq<string>)
    ensures |ks| == |fs|
  {
    if fs == [] then [] else [fs[0].0] + KeysOf(fs[1..])
  }

  lemma {:induction false} KeysOfIndex(fs: Fields, i: nat)
    requires i < |fs|
    ensures KeysOf(fs)[i] == fs[i].0
  {
    if i > 0 {
      KeysOfIndex(fs[1..], i - 1);
    }
  }

  lemma {:induction false} KeysOfAppend(a: Fields, b: Fields)
    ensures KeysOf(a + b) == KeysOf(a) + KeysOf(b)
  {
    if a != [] {
      assert (a + b)[0] == a[0] && (a + b)[1..] == a[1..] + b;
      KeysOfAppend(a[1..], b);
      calc {
        KeysOf(a + b);
        [a[0].0] + KeysOf(a[1..] + b);
        [a[0].0] + (KeysOf(a[1..]) + KeysOf(b));
        ([a[0].0] + KeysOf(a[1..])) + KeysOf(b);
        KeysOf(a) + KeysOf(b);
      }
    } else {
      assert a + b == b;
    }
  }

  /** The keys of a list with one more entry at the end. */
  /** Two lists with the same key at every position have the same keys. */
  lemma {:induction false} SameKeys(a: Fields, b: Fields)
    requires |a| == |b| && forall i :: 0 <= i < |a| ==> a[i].0 == b[i].0
    ensures KeysOf(a) == KeysOf(b)
    decreases |a|
  {
    if a != [] {
      SameKeys(a[1..], b[1..]);
    }
  }

  lemma KeysOfSnoc(fs: Fields)
    requires fs != []
    ensures KeysOf(fs) == KeysOf(fs[..|fs| - 1]) + [fs[|fs| - 1].0]
  {
    var init, last := fs[..|fs| - 1], fs[|fs| - 1];
    SplitLast(fs);
    KeysOfAppend(init, [last]);
    assert KeysOf([last]) == [last.0];
  }

  /** A key occurs in the key list exactly when some entry carries it. */
  lemma {:induction false} KeyInIff(fs: Fields, k: string)
    ensures k in KeysOf(fs) <==> exists i :: 0 <= i < |fs| && fs[i].0 == k
  {
    if fs != [] {
      KeyInIff(fs[1..], k);
      if k in KeysOf(fs[1..]) {
        var i :| 0 <= i < |fs[1..]| && fs[1..][i].0 == k;
        assert fs[i + 1].0 == k;
      }
      if exists i :: 0 <= i < |fs| && fs[i].0 == k {
        var i :| 0 <= i < |fs| && fs[i].0 == k;
        if i > 0 {
          assert fs[1..][i - 1].0 == k;
        }
      }
    }
  }

  predicate DistinctKeys(fs: Fields) {
    forall i, j :: 0 <= i < j < |fs| ==> fs[i].0 != fs[j].0
  }

  /** Dropping the first entry of a duplicate-free list loses its key. */
  lemma DistinctFront(fs: Fields)
    requires DistinctKeys(fs) && fs != []
    ensures DistinctKeys(fs[1..]) && fs[0].0 !in KeysOf(fs[1..])
  {
    KeyInIff(fs[1..], fs[0].0);
    forall i | 0 <= i < |fs[1..]| ensures fs[1..][i].0 != fs[0].0 {
      assert fs[1..][i] == fs[i + 1];
    }
  }

  /** A key that is new to a duplicate-free list may go in front of it. */
  lemma DistinctCons(e: (string, Json), fs: Fields)
    requires DistinctKeys(fs) && e.0 !in KeysOf(fs)
    ensures DistinctKeys([e] + fs)
  {
    KeyInIff(fs, e.0);
    var r := [e] + fs;
    forall i, j | 0 <= i < j < |r| ensures r[i].0 != r[j].0 {
      assert r[j] == fs[j - 1];
      if i > 0 {
        assert r[i] == fs[i - 1];
      }
    }
  }

  /** A key that is new to a duplicate-free list may go after it. */
  lemma DistinctAppend(fs: Fields, e: (string, Json))
    requires DistinctKeys(fs) && e.0 !in KeysOf(fs)
    ensures DistinctKeys(fs + [e])
  {
    KeyInIff(fs, e.0);
    var r := fs + [e];
    forall i, j | 0 <= i < j < |r| ensures r[i].0 != r[j].0 {
      assert r[i] == fs[i];
      if j < |fs| {
        assert r[j] == fs[j];
      }
    }
  }

  /** Dropping the last entry of a duplicate-free list loses its key. */
  lemma DistinctSnoc(fs: Fields)
    requires DistinctKeys(fs) && fs != []
    ensures DistinctKeys(fs[..|fs| - 1]) && fs[|fs| - 1].0 !in KeysOf(fs[..|fs| - 1])
  {
    var init := fs[..|fs| - 1];
    KeyInIff(init, fs[|fs| - 1].0);
    forall i | 0 <= i < |init| ensures init[i].0 != fs[|fs| - 1].0 {
      assert init[i] == fs[i];
    }
    forall i, j | 0 <= i < j < |init| ensures init[i].0 != init[j].0 {
      assert init[i] == fs[i] && init[j] == fs[j];
    }
  }

  /** `obj[k]` on an object: the value of the first entry with key `k`, or `undefined`. */
  function Lookup(fs: Fields, k: string): (r: Json)
    ensures k !in KeysOf(fs) ==> r == Undef
  {
    if fs == [] then Undef
    else if fs[0].0 == k then fs[0].1
    else Lookup(fs[1..], k)
  }

  lemma {:induction false} LookupAt(fs: Fields, i: nat)
    requires DistinctKeys(fs) && i < |fs|
    ensures Lookup(fs, fs[i].0) == fs[i].1
  {
    if i > 0 {
      LookupAt(fs[1..], i - 1);
    }
  }

  /** An entry added at the end is invisible to every other key. */
  lemma {:induction false} LookupAppend(fs: Fields, e: (string, Json), k: string)
    requires k != e.0
    ensures Lookup(fs + [e], k) == Lookup(fs, k)
  {
    if fs != [] {
      assert (fs + [e])[1..] == fs[1..] + [e];
      LookupAppend(fs[1..], e, k);
    } else {
      assert [e][1..] == [];
    }
  }

  /** The last entry of a duplicate-free list is what its key reads. */
  lemma {:induction false} LookupLast(fs: Fields)
    requires DistinctKeys(fs) && fs != []
    ensures Lookup(fs, fs[|fs| - 1].0) == fs[|fs| - 1].1
  {
    LookupAt(fs, |fs| - 1);
  }

  /** A key other than the last entry's reads the same in the front of the list. */
  lemma {:induction false} LookupInit(fs: Fields, k: string)
    requires fs != [] && k != fs[|fs| - 1].0
    ensures Lookup(fs, k) == Lookup(fs[..|fs| - 1], k)
  {
    SplitLast(fs);
    LookupAppend(fs[..|fs| - 1], fs[|fs| - 1], k);
  }

  /** `obj[k] = v`: an existing key keeps its position, a new key goes last. */
  function Put(fs: Fields, k: string, v: Json): (r: Fields)
    ensures Lookup(r, k) == v
    ensures forall k' :: k' != k ==> Lookup(r, k') == Lookup(fs, k')
  {
    if fs == [] then [(k, v)]
    else if fs[0].0 == k then [(k, v)] + fs[1..]
    else [fs[0]] + Put(fs[1..], k, v)
  }

  /** After `obj[k] = v` the keys are the old ones and `k`. */
  lemma {:induction false} PutKeyIn(fs: Fields, k: string, v: Json, k': string)
    ensures k' in KeysOf(Put(fs, k, v)) <==> k' == k || k' in KeysOf(fs)
  {
    if fs != [] {
      if fs[0].0 != k {
        PutKeyIn(fs[1..], k, v, k');
        assert Put(fs, k, v)[1..] == Put(fs[1..], k, v);
      } else {
        assert Put(fs, k, v)[1..] == fs[1..];
      }
    }
  }

  /** Every entry after a write is an old entry or the written one. */
  lemma {:induction false} PutEntries(fs: Fields, k: string, v: Json)
    ensures forall e :: e in Put(fs, k, v) ==> e in fs || e == (k, v)
  {
    if fs != [] && fs[0].0 != k {
      PutEntries(fs[1..], k, v);
    }
  }

  /** `delete obj[k]`. */
  function Remove(fs: Fields, k: string): (r: Fields)
    ensures Lookup(r, k) == Undef && k !in KeysOf(r)
    ensures forall k' :: k' != k ==> Lookup(r, k') == Lookup(fs, k')
    ensures forall k' :: k' != k ==> (k' in KeysOf(r) <==> k' in KeysOf(fs))
    ensures DistinctKeys(fs) ==> DistinctKeys(r)
    ensures forall e :: e in r ==> e in fs
  {
    if fs == [] then []
    else
      var rest := Remove(fs[1..], k);
      if fs[0].0 == k then rest
      else
        assert ([fs[0]] + rest)[1..] == rest;
        assert DistinctKeys(fs) ==> DistinctKeys([fs[0]] + rest) by {
          if DistinctKeys(fs) {
            DistinctFront(fs);
            DistinctCons(fs[0], rest);
          }
        }
        [fs[0]] + rest
  }

  lemma {:induction false} PutKeepsDistinct(fs: Fields, k: string, v: Json)
    requires DistinctKeys(fs)
    ensures DistinctKeys(Put(fs, k, v))
  {
    if fs != [] && fs[0].0 != k {
      var rest := Put(fs[1..], k, v);
      assert DistinctKeys(fs[1..]);
      PutKeepsDistinct(fs[1..], k, v);
      PutEntries(fs[1..], k, v);
      forall j | 0 <= j < |rest| ensures rest[j].0 != fs[0].0 {
        assert rest[j] in rest;
      }
    }
  }

  /** Object entries fed one by one into `obj[k] = v`, as `Object.assign` and literal spreads do. */
  function PutAll(fs: Fields, src: Fields): (r: Fields)
    ensures forall k :: k !in KeysOf(src) ==> Lookup(r, k) == Lookup(fs, k)
  {
    if src == [] then fs
    else
      var last := src[|src| - 1];
      KeysOfSnoc(src);
      Put(PutAll(fs, src[..|src| - 1]), last.0, last.1)
  }

  /** The keys after `Object.assign(target, src)` are the target's followed by the new ones of `src`. */
  lemma {:induction false} PutAllKeys(fs: Fields, src: Fields)
    ensures forall k :: k in KeysOf(PutAll(fs, src)) <==> k in KeysOf(fs) || k in KeysOf(src)
  {
    if src != [] {
      var last := src[|src| - 1];
      PutAllKeys(fs, src[..|src| - 1]);
      forall k ensures k in KeysOf(PutAll(fs, src)) <==> k == last.0 || k in KeysOf(PutAll(fs, src[..|src| - 1])) {
        PutKeyIn(PutAll(fs, src[..|src| - 1]), last.0, last.1, k);
      }
      KeysOfSnoc(src);
    }
  }

  lemma {:induction false} PutNew(fs: Fields, k: string, v: Json)
    requires k !in KeysOf(fs)
    ensures Put(fs, k, v) == fs + [(k, v)]
  {
    if fs != [] {
      PutNew(fs[1..], k, v);
      assert fs == [fs[0]] + fs[1..];
    }
  }

  lemma {:induction false} PutAllFresh(src: Fields)
    requires DistinctKeys(src)
    ensures PutAll([], src) == src
  {
    if src != [] {
      var init := src[..|src| - 1];
      var last := src[|src| - 1];
      DistinctSnoc(src);
      PutAllFresh(init);
      PutNew(init, last.0, last.1);
      assert PutAll([], src) == Put(PutAll([], init), last.0, last.1);
      SplitLast(src);
    }
  }

  /** `Object.assign` onto an object keeps its keys distinct. */
  lemma {:induction false} PutAllKeepsDistinct(fs: Fields, src: Fields)
    requires DistinctKeys(fs)
    ensures DistinctKeys(PutAll(fs, src))
  {
    if src != [] {
      var last := src[|src| - 1];
      PutAllKeepsDistinct(fs, src[..|src| - 1]);
      PutKeepsDistinct(PutAll(fs, src[..|src| - 1]), last.0, last.1);
    }
  }

  /** After `Object.assign(target, src)`, every key of a duplicate-free `src` has its value from `src`. */
  lemma {:induction false} PutAllLookupAt(fs: Fields, src: Fields, i: nat)
    requires DistinctKeys(src) && i < |src|
    ensures Lookup(PutAll(fs, src), src[i].0) == src[i].1
  {
    var init := src[..|src| - 1];
    var last := src[|src| - 1];
    assert PutAll(fs, src) == Put(PutAll(fs, init), last.0, last.1);
    if i < |src| - 1 {
      DistinctSnoc(src);
      assert init[i] == src[i];
      PutAllLookupAt(fs, init, i);
    }
  }

  /** With a duplicate-free `src`, a key of `src` keeps its value from `src`. */
  lemma PutAllLookup(fs: Fields, src: Fields, k: string)
    requires DistinctKeys(src) && k in KeysOf(src)
    ensures Lookup(PutAll(fs, src), k) == Lookup(src, k)
  {
    KeyInIff(src, k);
    var i :| 0 <= i < |src| && src[i].0 == k;
    PutAllLookupAt(fs, src, i);
    LookupAt(src, i);
  }

  /** Writing back the value a key already has changes nothing. */
  lemma {:induction false} PutSame(fs: Fields, i: nat)
    requires DistinctKeys(fs) && i < |fs|
    ensures Put(fs, fs[i].0, fs[i].1) == fs
  {
    if i > 0 {
      PutSame(fs[1..], i - 1);
    }
  }

  /** Writing a key twice leaves only the second value. */
  lemma {:induction false} PutPut(fs: Fields, k: string, a: Json, b: Json)
    ensures Put(Put(fs, k, a), k, b) == Put(fs, k, b)
  {
    if fs != [] && fs[0].0 != k {
      PutPut(fs[1..], k, a, b);
      assert ([fs[0]] + Put(fs[1..], k, a))[1..] == Put(fs[1..], k, a);
    }
  }

  /** The value carried by the last entry of `src` with key `k`, if any. */
  function LastWrite(src: Fields, k: string): (r: Option<Json>)
    ensures r.None? <==> k !in KeysOf(src)
  {
    if src == [] then None
    else
      KeysOfSnoc(src);
      if src[|src| - 1].0 == k then Some(src[|src| - 1].1)
      else LastWrite(src[..|src| - 1], k)
  }

  /** Entries fed one by one into `obj[k] = v`: the last write to a key wins. */
  lemma {:induction false} PutAllLast(fs: Fields, src: Fields, k: string)
    ensures Lookup(PutAll(fs, src), k) == if LastWrite(src, k).Some? then LastWrite(src, k).value else Lookup(fs, k)
  {
    if src != [] {
      PutAllLast(fs, src[..|src| - 1], k);
    }
  }

  /** The last write to `k` in `a + b` is the one in `b`, when `b` writes `k` at all. */
  lemma {:induction false} LastWriteAppend(a: Fields, b: Fields, k: string)
    ensures LastWrite(a + b, k) == if LastWrite(b, k).Some? then LastWrite(b, k) else LastWrite(a, k)
  {
    if b == [] {
      assert a + b == a;
    } else {
      var ab := a + b;
      assert ab[..|ab| - 1] == a + b[..|b| - 1];
      assert ab[|ab| - 1] == b[|b| - 1];
      LastWriteAppend(a, b[..|b| - 1], k);
    }
  }

  /** A write is the last one to its key when no later entry carries that key. */
  lemma {:induction false} LastWriteAt(src: Fields, i: nat)
    requires i < |src|
    requires forall j :: i < j < |src| ==> src[j].0 != src[i].0
    ensures LastWrite(src, src[i].0) == Some(src[i].1)
    decreases |src|
  {
    if i < |src| - 1 {
      var init := src[..|src| - 1];
      assert init[i] == src[i];
      LastWriteAt(init, i);
    }
  }

  /** A list of strings as a JavaScript array of strings. */
  function StrArray(ks: seq<string>): (r: Json)
    ensures r.Arr? && |r.elems| == |ks| && forall i :: 0 <= i < |ks| ==> r.elems[i] == Str(ks[i])
  {
    Arr(seq(|ks|, i requires 0 <= i < |ks| => Str(ks[i])))
  }

  // ---------------------------------------------------------------- property access

  /** `v[k]` on a value that is not `undefined`/`null` (inherited prototype members are not modelled). */
  function Get(v: Json, k: string): (r: Json)
    ensures !IsObject(v) && !v.Str? ==> r == Undef
    ensures ParseIndex(k).None? && !v.Obj? ==> r == Undef
  {
    match v
    case Obj(fs) => Lookup(fs, k)
    case Arr(es) =>
      (match ParseIndex(k)
       case Some(i) => if i < |es| then es[i] else Undef
       case None => Undef)
    case Str(s) =>
      (match ParseIndex(k)
       case Some(i) => if i < |s| then Str([s[i]]) else Undef
       case None => Undef)
    case _ => Undef
  }

  /** Reading a key of a non-index name never grows: what comes back is stored inside `v`. */
  lemma GetSmaller(v: Json, k: string)
    requires ParseIndex(k).None? && Get(v, k) != Undef
    ensures v.Obj? && Size(Get(v, k)) < Size(v)
  {
    var fs := v.fields;
    LookupIndexFacts(fs, k);
    var i :| 0 <= i < |fs| && fs[i] == (k, Lookup(fs, k));
    FieldSmaller(fs, i);
  }

  lemma {:induction false} LookupIndexFacts(fs: Fields, k: string)
    requires Lookup(fs, k) != Undef
    ensures exists i :: 0 <= i < |fs| && fs[i] == (k, Lookup(fs, k))
  {
    if fs[0].0 != k {
      LookupIndexFacts(fs[1..], k);
      var i :| 0 <= i < |fs[1..]| && fs[1..][i] == (k, Lookup(fs[1..], k));
      assert fs[i + 1] == fs[1..][i];
    }
  }

  /** `v[k]`: reading a property of `undefined` or `null` throws. */
  function Read(v: Json, k: string): (r: Result<Json, JsError>)
    ensures r.Failure? <==> v.Undef? || v.Null?
    ensures r.Ok? ==> r.value == Get(v, k)
  {
    if v.Undef? || v.Null? then Failure(TypeError) else Ok(Get(v, k))
  }

  /** `k in v`: defined only on objects and arrays, otherwise a TypeError. */
  function HasProp(v: Json, k: string): (r: Result<bool, JsError>)
    ensures r.Ok? <==> IsObject(v)
    ensures v.Obj? ==> r == Ok(k in KeysOf(v.fields))
  {
    match v
    case Obj(fs) => Ok(k in KeysOf(fs))
    case Arr(es) => Ok(ParseIndex(k).Some? && ParseIndex(k).value < |es|)
    case _ => Failure(TypeError)
  }

  function Holes(n: nat): (r: seq<Json>)
    ensures |r| == n && forall i :: 0 <= i < n ==> r[i] == Undef
  {
    seq(n, _ => Undef)
  }

  /** `v[k] = x` in strict mode: a primitive target throws; a named (non-index)
      key on an array is dropped, since no JSON value can hold it. */
  function SetProp(v: Json, k: string, x: Json): (r: Result<Json, JsError>)
    ensures r.Ok? <==> IsObject(v)
    ensures v.Obj? ==> r == Ok(Obj(Put(v.fields, k, x)))
    ensures r.Ok? && (v.Obj? || ParseIndex(k).Some?) ==> Get(r.value, k) == x
    ensures r.Ok? ==> r.value.Obj? == v.Obj? && r.value.Arr? == v.Arr?
  {
    match v
    case Obj(fs) => Ok(Obj(Put(fs, k, x)))
    case Arr(es) =>
      (match ParseIndex(k)
       case Some(i) =>
         if i < |es| then Ok(Arr(es[i := x]))
         else
           var r := es + Holes(i - |es|) + [x];
           assert r[i] == x;
           Ok(Arr(r))
       case None => Ok(v))
    case _ => Failure(TypeError)
  }

  /** `delete v[k]` in strict mode; deleting an array element leaves a hole. */
  function DeleteProp(v: Json, k: string): (r: Result<Json, JsError>)
    ensures v.Obj? ==> r == Ok(Obj(Remove(v.fields, k)))
    ensures r.Ok? ==> Get(r.value, k) == Undef
    ensures v.Undef? || v.Null? ==> r.Failure?
    ensures r.Ok? ==> r.value.Obj? == v.Obj? && r.value.Arr? == v.Arr?
  {
    match v
    case Undef => Failure(TypeError)
    case Null => Failure(TypeError)
    case Obj(fs) => Ok(Obj(Remove(fs, k)))
    case Arr(es) =>
      (match ParseIndex(k)
       case Some(i) => if i < |es| then Ok(Arr(es[i := Undef])) else Ok(v)
       case None => Ok(v))
    case Str(s) =>
      (match ParseIndex(k)
       case Some(i) => if i < |s| then Failure(TypeError) else Ok(v)
       case None => Ok(v))
    case _ => Ok(v)
  }

  /** `Object.entries(v)`: own enumerable string-keyed entries (`[]` for numbers and booleans). */
  function Entries(v: Json): (r: Fields)
    ensures v.Obj? ==> r == v.fields
    ensures !IsObject(v) && !v.Str? ==> r == []
    ensures v.Arr? ==> |r| == |v.elems| && forall i :: 0 <= i < |r| ==> r[i] == (NatToString(i), v.elems[i])
    ensures forall i :: 0 <= i < |r| ==> Size(r[i].1) <= Size(v)
    ensures IsObject(v) ==> forall i :: 0 <= i < |r| ==> Size(r[i].1) < Size(v)
    ensures v.Str? ==> forall i :: 0 <= i < |r| ==> r[i].1.Str?
  {
    match v
    case Obj(fs) =>
      assert forall i :: 0 <= i < |fs| ==> Size(fs[i].1) < Size(v) by {
        forall i | 0 <= i < |fs| ensures Size(fs[i].1) < Size(v) { FieldSmaller(fs, i); }
      }
      fs
    case Arr(es) =>
      assert forall i :: 0 <= i < |es| ==> Size(es[i]) < Size(v) by {
        forall i | 0 <= i < |es| ensures Size(es[i]) < Size(v) { ElemSmaller(es, i); }
      }
      seq(|es|, i requires 0 <= i < |es| => (NatToString(i), es[i]))
    case Str(s) => seq(|s|, i requires 0 <= i < |s| => (NatToString(i), Str([s[i]])))
    case _ => []
  }

  /** `Object.keys(v)`. */
  function Keys(v: Json): seq<string> {
    KeysOf(Entries(v))
  }

  /** `v.find(t => t !== "null")` on an array: the first element other than the string "null". */
  function FindNotNullString(es: seq<Json>): (r: Json)
    ensures r != Str("null") && (r != Undef ==> r in es)
    ensures |es| > 0 && es[0] != Str("null") ==> r == es[0]
    ensures (forall i :: 0 <= i < |es| ==> es[i] == Str("null")) ==> r == Undef
  {
    if es == [] then Undef
    else if es[0] != Str("null") then es[0]
    else FindNotNullString(es[1..])
  }

  /** `String(v)`, the key `v` stands for in `obj[v]`. */
  function ToPropertyKey(v: Json): string
    decreases Size(v), 1
  {
    match v
    case Undef => "undefined"
    case Null => "null"
    case Bool(b) => if b then "true" else "false"
    case Num(n) => IntToString(n)
    case Str(s) => s
    case Obj(_) => "[object Object]"
    case Arr(es) =>
      SizeArr(es);
      Join(ElemStrings(es), ",")
  }

  /** The element strings `Array.prototype.join` uses: `undefined` and `null` become "". */
  function ElemStrings(es: seq<Json>): (r: seq<string>)
    ensures |r| == |es|
    decreases EW(es), 2
  {
    if es == [] then []
    else
      var last := es[|es| - 1];
      ElemStrings(es[..|es| - 1]) + [if last.Undef? || last.Null? then "" else ToPropertyKey(last)]
  }

  // ---------------------------------------------------------------- well-formedness and clones

  /** Every object level has distinct keys, as every JavaScript object does. */
  predicate WF(v: Json)
    decreases v
  {
    match v
    case Obj(fs) => DistinctKeys(fs) && forall i :: 0 <= i < |fs| ==> WF(fs[i].1)
    case Arr(es) => forall i :: 0 <= i < |es| ==> WF(es[i])
    case _ => true
  }

  /** No `undefined` is stored anywhere: what `JSON.parse` produces. */
  predicate NoUndef(v: Json)
    decreases v
  {
    match v
    case Undef => false
    case Obj(fs) => forall i :: 0 <= i < |fs| ==> NoUndef(fs[i].1)
    case Arr(es) => forall i :: 0 <= i < |es| ==> NoUndef(es[i])
    case _ => true
  }

  /** `JSON.parse(JSON.stringify(v))`: `undefined` at the top is a SyntaxError,
      `undefined` object values are dropped and `undefined` array elements become `null`. */
  function Clone(v: Json): (r: Result<Json, JsError>)
    ensures r.Failure? <==> v.Undef?
  {
    if v.Undef? then Failure(SyntaxError) else Ok(CloneValue(v))
  }

  function CloneValue(v: Json): (r: Json)
    requires !v.Undef?
    ensures NoUndef(r)
    ensures r.Obj? == v.Obj? && r.Arr? == v.Arr?
    decreases Size(v), 0
  {
    match v
    case Obj(fs) => SizeObj(fs); Obj(CloneFields(fs))
    case Arr(es) => SizeArr(es); Arr(CloneElems(es))
    case _ => v
  }

  function CloneFields(fs: Fields): (r: Fields)
    ensures forall i :: 0 <= i < |r| ==> NoUndef(r[i].1)
    ensures forall k :: k in KeysOf(r) ==> k in KeysOf(fs)
    ensures DistinctKeys(fs) ==> DistinctKeys(r)
    decreases FW(fs), 1
  {
    if fs == [] then []
    else
      var init := fs[..|fs| - 1];
      var last := fs[|fs| - 1];
      KeysOfSnoc(fs);
      assert DistinctKeys(fs) ==> DistinctKeys(init) && last.0 !in KeysOf(init) by {
        if DistinctKeys(fs) { DistinctSnoc(fs); }
      }
      if last.1.Undef? then CloneFields(init)
      else
        var r := CloneFields(init) + [(last.0, CloneValue(last.1))];
        KeysOfSnoc(r);
        assert DistinctKeys(fs) ==> DistinctKeys(r) by {
          if DistinctKeys(fs) { DistinctAppend(CloneFields(init), (last.0, CloneValue(last.1))); }
        }
        assert r[..|r| - 1] == CloneFields(init);
        r
  }

  function CloneElems(es: seq<Json>): (r: seq<Json>)
    ensures |r| == |es| && forall i :: 0 <= i < |r| ==> NoUndef(r[i])
    decreases EW(es), 1
  {
    if es == [] then []
    else
      var last := es[|es| - 1];
      CloneElems(es[..|es| - 1]) + [if last.Undef? then Null else CloneValue(last)]
  }

  /** A JSON round trip leaves a parsed document as it was. */
  lemma {:induction false} CloneOfParsed(v: Json)
    requires NoUndef(v)
    ensures CloneValue(v) == v
    decreases Size(v), 0
  {
    match v
    case Obj(fs) => SizeObj(fs); CloneFieldsOfParsed(fs);
    case Arr(es) => SizeArr(es); CloneElemsOfParsed(es);
    case _ =>
  }

  lemma {:induction false} CloneFieldsOfParsed(fs: Fields)
    requires forall i :: 0 <= i < |fs| ==> NoUndef(fs[i].1)
    ensures CloneFields(fs) == fs
    decreases FW(fs), 1
  {
    if fs != [] {
      CloneFieldsOfParsed(fs[..|fs| - 1]);
      CloneOfParsed(fs[|fs| - 1].1);
    }
  }

  lemma {:induction false} CloneElemsOfParsed(es: seq<Json>)
    requires forall i :: 0 <= i < |es| ==> NoUndef(es[i])
    ensures CloneElems(es) == es
    decreases EW(es), 1
  {
    if es != [] {
      CloneElemsOfParsed(es[..|es| - 1]);
      CloneOfParsed(es[|es| - 1]);
    }
  }

  /** A copy is truthy exactly when the original is. */
  lemma CloneTruthy(v: Json)
    requires !v.Undef?
    ensures Truthy(CloneValue(v)) == Truthy(v)
  {
  }

  /** What a copied object holds under `k`: a copy of the original's value
      (which was dropped when it was `undefined`). */
  lemma {:induction false} CloneFieldsLookup(fs: Fields, k: string)
    requires DistinctKeys(fs)
    ensures Lookup(CloneFields(fs), k) == if Lookup(fs, k).Undef? then Undef else CloneValue(Lookup(fs, k))
    decreases |fs|
  {
    if fs != [] {
      var init, last := fs[..|fs| - 1], fs[|fs| - 1];
      DistinctSnoc(fs);
      CloneFieldsLookup(init, k);
      KeysOfSnoc(fs);
      if k == last.0 {
        LookupLast(fs);
        if !last.1.Undef? {
          LookupLast(CloneFields(fs));
        }
      } else {
        LookupInit(fs, k);
        if !last.1.Undef? {
          LookupAppend(CloneFields(init), (last.0, CloneValue(last.1)), k);
        }
      }
    }
  }
}
