/**
  Client-side ordering of the aggregated view: the single-key sort
  configuration, its toggle, the comparator handed to `Array.prototype.sort`,
  and the sort itself, run in place on a copy of the mapped rows.
 */
module AggregatedSort {
  import opened JsValues
  import opened AggregatedRows

  datatype Direction = Asc | Desc

  /** The `sortConfig` state: the column sorted on (`null` at first) and the direction. */
  datatype SortConfig = SortConfig(key: Option<string>, direction: Direction)

  const InitialSortConfig := SortConfig(None, Asc)

  /** `handleSort(key)`: the same column while ascending turns descending; anything else sorts ascending on `key`. */
  function ToggleSort(prev: SortConfig, key: string): (next: SortConfig)
    ensures next.key == Some(key)
    ensures next.direction == Desc <==> prev == SortConfig(Some(key), Asc)
  {
    SortConfig(Some(key), if prev.key == Some(key) && prev.direction == Asc then Desc else Asc)
  }

  /**
    The toggle always selects the clicked column, descends exactly when that
    column was already ascending, and so alternates the direction on repeated
    clicks of one column: twice from ascending is ascending again.
   */
  lemma ToggleSortAlternates(prev: SortConfig, key: string)
    ensures ToggleSort(prev, key).key == Some(key)
    ensures ToggleSort(prev, key).direction == Desc <==> prev.key == Some(key) && prev.direction == Asc
    ensures ToggleSort(ToggleSort(prev, key), key).direction != ToggleSort(prev, key).direction
    ensures prev == SortConfig(Some(key), Asc) ==> ToggleSort(ToggleSort(prev, key), key) == prev
  {
  }

  /** `if (sortConfig.key)`: the rows are sorted only under a truthy key. */
  predicate SortsBy(config: SortConfig) {
    config.key.Some? && config.key.value != ""
  }

  /**
    The comparator on two cell values: numbers by difference, anything else
    by comparing the values' strings; the operands swap for "desc".
   */
  function Compare(dir: Direction, a: JsValue, b: JsValue): int {
    if a.Num? && b.Num? then
      (if dir == Asc then a.n - b.n else b.n - a.n)
    else if dir == Asc then LexCompare(ToJsString(a), ToJsString(b))
    else LexCompare(ToJsString(b), ToJsString(a))
  }

  /**
    Two numbers compare by their difference: negative exactly when the first
    comes first in the direction, zero exactly when they are equal. Any other
    pair compares by strings, giving -1, 0 or 1, and 0 exactly when the
    strings agree.
   */
  lemma CompareSign(dir: Direction, a: JsValue, b: JsValue)
    ensures a.Num? && b.Num? ==> (Compare(dir, a, b) < 0 <==> if dir == Asc then a.n < b.n else a.n > b.n)
    ensures a.Num? && b.Num? ==> (Compare(dir, a, b) == 0 <==> a.n == b.n)
    ensures !(a.Num? && b.Num?) ==>
      -1 <= Compare(dir, a, b) <= 1 && (Compare(dir, a, b) == 0 <==> ToJsString(a) == ToJsString(b))
  {
  }

  /** Descending order is ascending order with the operands swapped, and the comparator is antisymmetric. */
  lemma CompareAntisymmetric(dir: Direction, a: JsValue, b: JsValue)
    ensures Compare(dir, b, a) == -Compare(dir, a, b)
    ensures Compare(Desc, a, b) == Compare(Asc, b, a)
  {
    if !(a.Num? && b.Num?) {
      LexCompareAntisymmetric(ToJsString(a), ToJsString(b));
    }
  }

  /** Values that are all numbers, or that contain no two numbers, are compared consistently. */
  predicate Uniform(a: JsValue, b: JsValue, c: JsValue) {
    (a.Num? && b.Num? && c.Num?) || (!(a.Num? && b.Num?) && !(b.Num? && c.Num?) && !(a.Num? && c.Num?))
  }

  /** On such values "not after" is transitive. */
  lemma CompareTransitive(dir: Direction, a: JsValue, b: JsValue, c: JsValue)
    requires Uniform(a, b, c)
    requires Compare(dir, a, b) <= 0 && Compare(dir, b, c) <= 0
    ensures Compare(dir, a, c) <= 0
  {
    if !(a.Num? && b.Num? && c.Num?) {
      if dir == Asc {
        LexCompareTransitive(ToJsString(a), ToJsString(b), ToJsString(c));
      } else {
        LexCompareTransitive(ToJsString(c), ToJsString(b), ToJsString(a));
      }
    }
  }

  /**
    Mixing numbers and strings makes the comparator non-transitive: on a
    column holding 9, 10 and "5" it compares in a strict cycle, 9 before 10
    (by value), 10 before "5" and "5" before 9 (by their strings).
   */
  lemma MixedColumnIsInconsistent()
    ensures Compare(Asc, Num(9), Num(10)) < 0
    ensures Compare(Asc, Num(10), Str("5")) < 0
    ensures Compare(Asc, Str("5"), Num(9)) < 0
  {
    assert NatToString(9) == "9";
    assert NatToString(10) == NatToString(1) + [DigitChar(0)] == "10";
  }

  /** One of the three values of that cycle. */
  predicate InCycle(v: JsValue) {
    v == Num(9) || v == Num(10) || v == Str("5")
  }

  /**
    So no arrangement of 9, 10 and "5" satisfies every comparison: whichever
    order the three take, some value compares after a later one.
   */
  lemma MixedColumnHasNoOrder(x: JsValue, y: JsValue, z: JsValue)
    requires InCycle(x) && InCycle(y) && InCycle(z)
    requires x != y && y != z && x != z
    ensures !(Compare(Asc, x, y) <= 0 && Compare(Asc, y, z) <= 0 && Compare(Asc, x, z) <= 0)
  {
    MixedColumnIsInconsistent();
    CompareAntisymmetric(Asc, Num(9), Num(10));
    CompareAntisymmetric(Asc, Num(10), Str("5"));
    CompareAntisymmetric(Asc, Str("5"), Num(9));
  }

  /** The comparator applied to the column `key` of two rows. */
  function CompareRows(key: string, dir: Direction, x: Row, y: Row): int {
    Compare(dir, Lookup(x, key), Lookup(y, key))
  }

  /** Every row is "not after" its successor under the comparator. */
  ghost predicate AdjacentSorted(s: seq<Row>, key: string, dir: Direction) {
    forall i :: 0 < i < |s| ==> CompareRows(key, dir, s[i - 1], s[i]) <= 0
  }

  /** Every row is "not after" every later row under the comparator. */
  ghost predicate Sorted(s: seq<Row>, key: string, dir: Direction) {
    forall i, j :: 0 <= i < j < |s| ==> CompareRows(key, dir, s[i], s[j]) <= 0
  }

  /** The column is all numbers, or has no numbers at all. */
  ghost predicate UniformColumn(s: seq<Row>, key: string) {
    (forall i :: 0 <= i < |s| ==> Lookup(s[i], key).Num?) ||
    (forall i :: 0 <= i < |s| ==> !Lookup(s[i], key).Num?)
  }

  /** On a uniform column, ordering neighbours orders every pair. */
  lemma {:induction false} AdjacentSortedIsSorted(s: seq<Row>, key: string, dir: Direction)
    requires UniformColumn(s, key)
    requires AdjacentSorted(s, key, dir)
    ensures Sorted(s, key, dir)
  {
    forall i, j | 0 <= i < j < |s|
      ensures CompareRows(key, dir, s[i], s[j]) <= 0
    {
      var k := i + 1;
      while k < j
        invariant i < k <= j
        invariant CompareRows(key, dir, s[i], s[k]) <= 0
      {
        CompareTransitive(dir, Lookup(s[i], key), Lookup(s[k], key), Lookup(s[k + 1], key));
        k := k + 1;
      }
    }
  }

  /** On a numeric column the sorted rows run up for "asc" and down for "desc". */
  lemma NumericColumnOrder(s: seq<Row>, key: string, dir: Direction)
    requires forall i :: 0 <= i < |s| ==> Lookup(s[i], key).Num?
    requires AdjacentSorted(s, key, dir)
    ensures forall i, j :: 0 <= i < j < |s| ==>
      if dir == Asc then Lookup(s[i], key).n <= Lookup(s[j], key).n
      else Lookup(s[i], key).n >= Lookup(s[j], key).n
  {
    AdjacentSortedIsSorted(s, key, dir);
  }

  /** The inner-loop invariant of the insertion: apart from the pair at `j`, neighbours are ordered, and so are the neighbours of `j` bridged over it. */
  ghost predicate Inserting(s: seq<Row>, key: string, dir: Direction, i: nat, j: nat) {
    j <= i < |s| &&
    (forall k :: 0 < k <= i && k != j ==> CompareRows(key, dir, s[k - 1], s[k]) <= 0) &&
    (0 < j < i ==> CompareRows(key, dir, s[j - 1], s[j + 1]) <= 0)
  }

  /** Swapping an out-of-order pair at `j` moves the inserted row one place down and keeps the invariant. */
  lemma InsertingStep(s: seq<Row>, key: string, dir: Direction, i: nat, j: nat)
    requires Inserting(s, key, dir, i, j)
    requires 0 < j && CompareRows(key, dir, s[j - 1], s[j]) > 0
    ensures Inserting(s[j - 1 := s[j]][j := s[j - 1]], key, dir, i, j - 1)
  {
    CompareAntisymmetric(dir, Lookup(s[j - 1], key), Lookup(s[j], key));
  }

  /** Exchanges the rows at `j - 1` and `j`. */
  method SwapDown(a: array<Row>, j: nat)
    requires 0 < j < a.Length
    modifies a
    ensures a[..] == old(a[..])[j - 1 := old(a[j])][j := old(a[j - 1])]
    ensures multiset(a[..]) == multiset(old(a[..]))
  {
    a[j - 1], a[j] := a[j], a[j - 1];
  }

  /**
    `filtered.sort(...)`: sorts the array in place, by insertion, under the
    comparator of the column `key`.
   */
  method SortRows(a: array<Row>, key: string, dir: Direction)
    modifies a
    ensures multiset(a[..]) == multiset(old(a[..]))
    ensures AdjacentSorted(a[..], key, dir)
  {
    if a.Length == 0 {
      return;
    }
    var i := 1;
    while i < a.Length
      invariant 1 <= i <= a.Length
      invariant multiset(a[..]) == multiset(old(a[..]))
      invariant forall k :: 0 < k < i ==> CompareRows(key, dir, a[k - 1], a[k]) <= 0
    {
      var j := i;
      while j > 0 && CompareRows(key, dir, a[j - 1], a[j]) > 0
        invariant multiset(a[..]) == multiset(old(a[..]))
        invariant Inserting(a[..], key, dir, i, j)
      {
        InsertingStep(a[..], key, dir, i, j);
        SwapDown(a, j);
        j := j - 1;
      }
      i := i + 1;
    }
  }

  /**
    The memoised `filteredData`: a copy of the mapped rows, sorted when a key
    is set. The result is always a permutation of the input; with no key it
    is the input in its own order, with a key it is ordered by that column.
   */
  method DisplayRows(mapped: seq<Row>, config: SortConfig) returns (shown: seq<Row>)
    ensures multiset(shown) == multiset(mapped)
    ensures !SortsBy(config) ==> shown == mapped
    ensures SortsBy(config) ==> AdjacentSorted(shown, config.key.value, config.direction)
  {
    var filtered := new Row[|mapped|](i requires 0 <= i < |mapped| => mapped[i]);
    assert filtered[..] == mapped;
    if SortsBy(config) {
      SortRows(filtered, config.key.value, config.direction);
    }
    shown := filtered[..];
  }
}
