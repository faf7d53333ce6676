/** Scrolling the rendered form to the field being edited: the editor's path is
    turned into the element id the form gives that field, and the ids of the
    path's prefixes are tried from the longest to the shortest until an element
    with that id exists. The document is modelled as the set of ids present. */
module ScrollToField {
  import opened Wrappers
  import opened Strings

  /** The last segments that name a field's description, title or help text. */
  const SpecialSuffixes: set<string> := {"ui:description", "ui:title", "ui:help"}

  /** The end of the run of decimal digits that starts at `from`. */
  function DigitRun(s: string, from: nat): (j: nat)
    requires from <= |s|
    ensures from <= j <= |s|
    ensures forall k :: from <= k < j ==> IsDigit(s[k])
    ensures j < |s| ==> !IsDigit(s[j])
    decreases |s| - from
  {
    if from < |s| && IsDigit(s[from]) then DigitRun(s, from + 1) else from
  }

  /** The pattern `\[(\d+)\]` matches at `i`: a `[`, one or more digits and a `]`.
      The digit run is greedy, so the `]` must follow the whole run. */
  predicate BracketAt(s: string, i: nat) {
    && i < |s| && s[i] == '['
    && var j := DigitRun(s, i + 1);
      j > i + 1 && j < |s| && s[j] == ']'
  }

  /** The leftmost match of `\[(\d+)\]` at or after `from`. */
  function FirstBracket(s: string, from: nat): (r: Option<nat>)
    requires from <= |s|
    ensures r.Some? ==> from <= r.value && BracketAt(s, r.value)
    ensures r.Some? ==> forall k :: from <= k < r.value ==> !BracketAt(s, k)
    ensures r.None? ==> forall k :: from <= k < |s| ==> !BracketAt(s, k)
    decreases |s| - from
  {
    if from == |s| then None
    else if BracketAt(s, from) then Some(from)
    else FirstBracket(s, from + 1)
  }

  /** `s.replace(/\[(\d+)\]/, "_$1")`: the first bracketed index becomes `_` and
      its digits; the rest of the string is kept. */
  function ReplaceIndex(s: string): (r: string)
    ensures FirstBracket(s, 0).None? ==> r == s
  {
    match FirstBracket(s, 0)
    case None => s
    case Some(i) =>
      var j := DigitRun(s, i + 1);
      s[..i] + "_" + s[i + 1..j] + s[j + 1..]
  }

  /** One segment as it appears in an element id: a leading `ui:` dropped and the
      first `[n]` written `_n`. */
  function Clean(seg: string): string {
    ReplaceIndex(StripPrefix(seg, "ui:"))
  }

  function CleanAll(segs: seq<string>): (r: seq<string>)
    ensures |r| == |segs| && forall i :: 0 <= i < |segs| ==> r[i] == Clean(segs[i])
  {
    seq(|segs|, i requires 0 <= i < |segs| => Clean(segs[i]))
  }

  predicate EndsWith(s: string, suffix: string) {
    |suffix| <= |s| && s[|s| - |suffix|..] == suffix
  }

  predicate IsSpecial(segs: seq<string>) {
    |segs| > 0 && segs[|segs| - 1] in SpecialSuffixes
  }

  /** `makeId`: the element id for the field at `segs`. A title, description or
      help segment at the end is written after a double underscore. */
  function MakeId(segs: seq<string>): string {
    if IsSpecial(segs) then
      SpecialId(Join(CleanAll(segs[..|segs| - 1]), "_"), StripPrefix(segs[|segs| - 1], "ui:"))
    else
      NormalId(CleanAll(segs))
  }

  /** The id of any other field: `root_` and the cleaned segments joined by `_`. */
  function NormalId(cleaned: seq<string>): string {
    "root_" + Join(cleaned, "_")
  }

  /** The id of a title, description or help text: the cleaned segments before it,
      then the double underscore and the bare suffix. */
  function SpecialId(base: string, suffix: string): string {
    if base != "" then "root_" + base + "__" + suffix else "root__" + suffix
  }

  /** Every id starts with `root_`; a special segment's id ends with the double
      underscore and the segment without its `ui:` prefix. */
  lemma IdShape(segs: seq<string>)
    ensures StartsWith(MakeId(segs), "root_")
    ensures IsSpecial(segs) ==> EndsWith(MakeId(segs), "__" + StripPrefix(segs[|segs| - 1], "ui:"))
  {
    if IsSpecial(segs) {
      SpecialShape(Join(CleanAll(segs[..|segs| - 1]), "_"), StripPrefix(segs[|segs| - 1], "ui:"));
    } else {
      assert NormalId(CleanAll(segs))[..5] == "root_";
    }
  }

  lemma SpecialShape(base: string, suffix: string)
    ensures StartsWith(SpecialId(base, suffix), "root_")
    ensures EndsWith(SpecialId(base, suffix), "__" + suffix)
  {
    if base != "" {
      Affixes("root_", base, "__" + suffix);
    } else {
      BareShape(suffix);
    }
  }

  lemma BareShape(suffix: string)
    ensures StartsWith("root__" + suffix, "root_") && EndsWith("root__" + suffix, "__" + suffix)
  {
    Affixes("root_", "", "_" + suffix);
    Affixes("root", "", "__" + suffix);
    assert "root__" + suffix == "root_" + "" + ("_" + suffix) == "root" + "" + ("__" + suffix);
  }

  lemma Affixes(a: string, b: string, c: string)
    ensures StartsWith(a + b + c, a) && EndsWith(a + b + c, c)
  {
    assert (a + b + c)[..|a|] == a;
    assert (a + b + c)[|a| + |b|..] == c;
  }

  /** The suffix written after the double underscore is the bare name:
      `description`, `title` or `help`. */
  lemma SpecialSuffix(segs: seq<string>)
    requires IsSpecial(segs)
    ensures StripPrefix(segs[|segs| - 1], "ui:") in {"description", "title", "help"}
  {
    var last := segs[|segs| - 1];
    assert last == "ui:description" || last == "ui:title" || last == "ui:help";
    assert StartsWith(last, "ui:");
    assert "ui:" + StripPrefix(last, "ui:") == last;
  }

  /** A special segment with nothing (or only empty text) before it gives `root__`
      and the bare suffix. */
  lemma SpecialAlone(segs: seq<string>)
    requires IsSpecial(segs) && Join(CleanAll(segs[..|segs| - 1]), "_") == ""
    ensures MakeId(segs) == "root__" + StripPrefix(segs[|segs| - 1], "ui:")
  {
  }

  /** In the normal case a longer path's id is the shorter path's id followed by
      `_` and the cleaned new segment. */
  lemma ExtendId(segs: seq<string>, seg: string)
    requires segs != [] && !IsSpecial(segs) && seg !in SpecialSuffixes
    ensures MakeId(segs + [seg]) == MakeId(segs) + "_" + Clean(seg)
  {
    var t := segs + [seg];
    assert !IsSpecial(t) by { assert t[|t| - 1] == seg; }
    CleanSnoc(segs, seg);
    NormalSnoc(CleanAll(segs), Clean(seg));
  }

  lemma CleanSnoc(segs: seq<string>, seg: string)
    ensures CleanAll(segs + [seg]) == CleanAll(segs) + [Clean(seg)]
  {
  }

  lemma NormalSnoc(xs: seq<string>, x: string)
    requires xs != []
    ensures NormalId(xs + [x]) == NormalId(xs) + "_" + x
  {
    assert (xs + [x])[..|xs|] == xs;
  }

  /** A segment without brackets loses only its `ui:` prefix. */
  lemma CleanPlain(seg: string)
    requires '[' !in seg
    ensures Clean(seg) == StripPrefix(seg, "ui:")
  {
    var s := StripPrefix(seg, "ui:");
    forall k | 0 <= k < |s| ensures s[k] != '[' {
      if StartsWith(seg, "ui:") {
        assert s[k] == seg[k + 3];
      } else {
        assert s[k] == seg[k];
      }
    }
  }

  /** An indexed segment `name[n]` becomes `name_n`. */
  lemma CleanIndex(name: string, n: nat)
    requires '[' !in name && !StartsWith(name, "ui:")
    ensures Clean(name + "[" + NatToString(n) + "]") == name + "_" + NatToString(n)
  {
    var d := NatToString(n);
    var s := name + "[" + d + "]";
    var i := |name|;
    assert !StartsWith(s, "ui:") by {
      if |s| >= 3 {
        if i <= 2 {
          assert s[..3][i] == '[' != "ui:"[i];
        } else {
          assert s[..3] == name[..3];
        }
      }
    }
    assert s[i] == '[';
    forall k | i + 1 <= k < i + 1 + |d| ensures IsDigit(s[k]) {
      assert s[k] == d[k - i - 1];
    }
    DigitRunEnd(s, i + 1, i + 1 + |d|);
    assert s[i + 1 + |d|] == ']';
    assert BracketAt(s, i);
    forall k | 0 <= k < i ensures !BracketAt(s, k) {
      assert s[k] == name[k];
    }
    FirstAt(s, i);
    assert s[..i] == name && s[i + 1..i + 1 + |d|] == d && s[i + 2 + |d|..] == "";
  }

  lemma {:induction false} DigitRunEnd(s: string, from: nat, j: nat)
    requires from <= j < |s| && !IsDigit(s[j])
    requires forall k :: from <= k < j ==> IsDigit(s[k])
    ensures DigitRun(s, from) == j
    decreases j - from
  {
    if from < j {
      DigitRunEnd(s, from + 1, j);
    }
  }

  lemma FirstAt(s: string, i: nat)
    requires i < |s| && BracketAt(s, i) && forall k :: 0 <= k < i ==> !BracketAt(s, k)
    ensures FirstBracket(s, 0) == Some(i)
  {
  }

  /** The element with the id of the prefix of length `m` exists. */
  predicate Found(fieldPath: seq<string>, present: set<string>, m: nat)
    requires m <= |fieldPath|
  {
    MakeId(fieldPath[..m]) in present
  }

  /** The ids tried for the prefixes of `fieldPath`: entry `k` is the id of the
      prefix of length `k + 1`. */
  function Candidates(fieldPath: seq<string>): (ids: seq<string>)
    ensures |ids| == |fieldPath|
  {
    seq(|fieldPath|, k requires 0 <= k < |fieldPath| => MakeId(fieldPath[..k + 1]))
  }

  lemma CandidateAt(fieldPath: seq<string>, m: nat)
    requires 0 < m <= |fieldPath|
    ensures Candidates(fieldPath)[m - 1] == MakeId(fieldPath[..m])
  {
  }

  /** The effect's loop: the ids of the prefixes of length `n` down to 1 are tried
      in turn and the first that names an element present in the document is
      scrolled to. The result is the length of that prefix. */
  method ScrollTarget(fieldPath: seq<string>, present: set<string>) returns (hit: Option<nat>)
    ensures hit.Some? ==> 0 < hit.value <= |fieldPath| && Found(fieldPath, present, hit.value)
    ensures hit.Some? ==> forall m :: hit.value < m <= |fieldPath| ==> !Found(fieldPath, present, m)
    ensures hit.None? ==> forall m :: 0 < m <= |fieldPath| ==> !Found(fieldPath, present, m)
  {
    var ids := Candidates(fieldPath);
    hit := LastPresent(ids, present);
    forall m | 0 < m <= |fieldPath| ensures Found(fieldPath, present, m) <==> ids[m - 1] in present {
      CandidateAt(fieldPath, m);
    }
  }
  /** The countdown `for (let i = ids.length; i > 0; i--)` that breaks at the first
      id present: the largest `i` whose id `ids[i - 1]` is present. */
  method LastPresent(ids: seq<string>, present: set<string>) returns (hit: Option<nat>)
    ensures hit.Some? ==> 0 < hit.value <= |ids| && ids[hit.value - 1] in present
    ensures hit.Some? ==> forall k :: hit.value <= k < |ids| ==> ids[k] !in present
    ensures hit.None? ==> forall k :: 0 <= k < |ids| ==> ids[k] !in present
  {
    var i := |ids|;
    hit := None;
    while i > 0 && hit.None?
      invariant 0 <= i <= |ids|
      invariant hit.None? ==> forall k :: i <= k < |ids| ==> ids[k] !in present
      invariant hit.Some? ==> i < |ids| && hit.value == i + 1 && ids[i] in present
      invariant hit.Some? ==> forall k :: i + 1 <= k < |ids| ==> ids[k] !in present
      decreases i, if hit.None? then 1 else 0
    {
      if ids[i - 1] in present {
        hit := Some(i);
      }
      i := i - 1;
    }
  }
}
