/** The drag-and-drop reorder of an order list: when an item is dropped, the
    list is copied, the dragged item is spliced out of the copy at the source
    index and spliced back in at the destination index, and the new list is
    handed to the reorder callback. */
module SortableList {
  import opened Wrappers
  import opened Json

  /** `newItems.splice(source, 1)` on a copy: the remaining list and the removed
      element, `undefined` when the source index is past the end. */
  function SpliceOut(items: seq<Json>, source: nat): (r: (seq<Json>, Json))
    ensures source < |items| ==> |r.0| == |items| - 1 && r.1 == items[source]
    ensures source >= |items| ==> r == (items, Undef)
  {
    if source < |items| then (items[..source] + items[source + 1..], items[source]) else (items, Undef)
  }

  /** `newItems.splice(destination, 0, x)`: an insertion index past the end appends. */
  function SpliceIn(items: seq<Json>, destination: nat, x: Json): (r: seq<Json>)
    ensures |r| == |items| + 1
  {
    var c := if destination < |items| then destination else |items|;
    items[..c] + [x] + items[c..]
  }

  /** The list handed to `onReorder` after a drop from `source` to `destination`. */
  function Moved(items: seq<Json>, source: nat, destination: nat): seq<Json> {
    var (rest, removed) := SpliceOut(items, source);
    SpliceIn(rest, destination, removed)
  }

  /** Where the moved item lands: the destination, clamped to the last position. */
  function Landing(items: seq<Json>, destination: nat): nat
    requires |items| > 0
  {
    if destination < |items| then destination else |items| - 1
  }

  /** `seq` with the element at `i` taken out. */
  function RemoveAt(xs: seq<Json>, i: nat): (r: seq<Json>)
    requires i < |xs|
    ensures |r| == |xs| - 1
  {
    xs[..i] + xs[i + 1..]
  }

  /** Element by element, the moved list is the old list shifted by one between
      the source and the landing index. */
  lemma MovedAt(items: seq<Json>, source: nat, destination: nat, j: nat)
    requires source < |items| && j < |items|
    ensures |Moved(items, source, destination)| == |items|
    ensures var c := Landing(items, destination);
      Moved(items, source, destination)[j] ==
        if j == c then items[source]
        else if source < c && source <= j < c then items[j + 1]
        else if c < source && c < j <= source then items[j - 1]
        else items[j]
  {
    var rest := items[..source] + items[source + 1..];
    var c := Landing(items, destination);
    assert SpliceOut(items, source) == (rest, items[source]);
    assert Moved(items, source, destination) == rest[..c] + [items[source]] + rest[c..];
    if j < c {
      assert Moved(items, source, destination)[j] == rest[j];
    } else if j > c {
      assert Moved(items, source, destination)[j] == rest[j - 1];
    }
  }

  /** The reorder keeps the length and is a permutation of the old list. */
  lemma MovedPermutation(items: seq<Json>, source: nat, destination: nat)
    requires source < |items|
    ensures |Moved(items, source, destination)| == |items|
    ensures multiset(Moved(items, source, destination)) == multiset(items)
  {
    var rest := items[..source] + items[source + 1..];
    var c := Landing(items, destination);
    assert SpliceOut(items, source) == (rest, items[source]);
    var x := items[source];
    assert Moved(items, source, destination) == rest[..c] + [x] + rest[c..];
    assert rest == rest[..c] + rest[c..];
    calc {
      multiset(rest[..c] + [x] + rest[c..]);
      multiset(rest[..c]) + multiset{x} + multiset(rest[c..]);
      multiset(rest) + multiset{x};
      multiset(items[..source]) + multiset(items[source + 1..]) + multiset{x};
      { assert items == items[..source] + [x] + items[source + 1..]; }
      multiset(items);
    }
  }

  /** The dragged item ends at the landing index, and with it taken out again the
      other items are in their old relative order. */
  lemma MovedOrder(items: seq<Json>, source: nat, destination: nat)
    requires source < |items|
    ensures var c := Landing(items, destination);
      Moved(items, source, destination)[c] == items[source] &&
      RemoveAt(Moved(items, source, destination), c) == RemoveAt(items, source)
  {
    var rest := items[..source] + items[source + 1..];
    var c := Landing(items, destination);
    var m := Moved(items, source, destination);
    assert SpliceOut(items, source) == (rest, items[source]);
    assert m == rest[..c] + [items[source]] + rest[c..];
    assert m[..c] == rest[..c];
    assert m[c + 1..] == rest[c..];
  }

  /** A drop whose source lies past the end inserts `undefined` and grows the list. */
  lemma MovedFromPastEnd(items: seq<Json>, source: nat, destination: nat)
    requires source >= |items|
    ensures var m := Moved(items, source, destination);
      |m| == |items| + 1 && Undef in m && multiset(m) == multiset(items) + multiset{Undef}
  {
    var c := if destination < |items| then destination else |items|;
    var m := Moved(items, source, destination);
    assert m == items[..c] + [Undef] + items[c..];
    assert m[c] == Undef;
    assert items == items[..c] + items[c..];
  }

  /** `handleDragEnd`: `None` when the drop had no destination (the callback is not
      called), otherwise the list given to the callback. The caller's `items` is a
      value and stays as it was; the copy is a fresh array. */
  method HandleDragEnd(items: seq<Json>, source: nat, destination: Option<nat>)
    returns (reordered: Option<seq<Json>>)
    ensures destination.None? ==> reordered.None?
    ensures destination.Some? ==> reordered == Some(Moved(items, source, destination.value))
  {
    if destination.None? {
      return None;
    }
    if source >= |items| {
      // The copy grows by one `undefined`; an array cannot, so the value is built directly.
      var c := if destination.value < |items| then destination.value else |items|;
      return Some(items[..c] + [Undef] + items[c..]);
    }
    var newItems := CopyOf(items);
    ShiftInto(newItems, source, Landing(items, destination.value));
    forall j | 0 <= j < |items|
      ensures newItems[j] == Moved(items, source, destination.value)[j]
    {
      MovedAt(items, source, destination.value, j);
    }
    MovedAt(items, source, destination.value, 0);
    assert newItems[..] == Moved(items, source, destination.value);
    return Some(newItems[..]);
  }

  /** `Array.from(items)`. */
  method CopyOf(items: seq<Json>) returns (a: array<Json>)
    ensures fresh(a) && a[..] == items
  {
    a := new Json[|items|];
    for i := 0 to |items|
      invariant a[..i] == items[..i]
    {
      a[i] := items[i];
    }
  }

  /** The two splices done in place on a fixed-size array: the item at `source` is
      taken out, the items between it and `c` move one step toward the gap, and
      the item is written at `c`. */
  method ShiftInto(a: array<Json>, source: nat, c: nat)
    requires source < a.Length && c < a.Length
    modifies a
    ensures a[c] == old(a[source])
    ensures forall j :: 0 <= j < a.Length && j != c ==>
      a[j] == if source < c && source <= j < c then old(a[j + 1])
              else if c < source && c < j <= source then old(a[j - 1])
              else old(a[j])
  {
    var removed := a[source];
    var i := source;
    if source < c {
      while i < c
        invariant source <= i <= c
        invariant forall j :: 0 <= j < a.Length && !(source <= j < i) ==> a[j] == old(a[j])
        invariant forall j :: source <= j < i ==> a[j] == old(a[j + 1])
      {
        a[i] := a[i + 1];
        i := i + 1;
      }
    } else {
      while i > c
        invariant c <= i <= source
        invariant forall j :: 0 <= j < a.Length && !(i < j <= source) ==> a[j] == old(a[j])
        invariant forall j :: i < j <= source ==> a[j] == old(a[j - 1])
      {
        a[i] := a[i - 1];
        i := i - 1;
      }
    }
    a[c] := removed;
  }
}
