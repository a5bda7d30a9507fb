/** Small value types shared by every module. */
module Common {
  datatype Option<+T> = None | Some(value: T)

  datatype Result<+T, +E> = Ok(value: T) | Err(error: E)

  /** How one atomic file rewrite ends; after a fault the file holds the old or the new bytes. */
  datatype Persist = Written | Fault(renamed: bool)

  function Max(a: int, b: int): int {
    if a < b then b else a
  }

  function Min(a: int, b: int): int {
    if a < b then a else b
  }

  /** The elements of `xs` that satisfy `keep`, in order: the source's `filter`. */
  function Filter<T(!new)>(xs: seq<T>, keep: T -> bool): (ys: seq<T>)
    ensures |ys| <= |xs|
    ensures forall y :: y in ys <==> y in xs && keep(y)
  {
    if xs == [] then []
    else if keep(xs[0]) then [xs[0]] + Filter(xs[1..], keep)
    else Filter(xs[1..], keep)
  }

  lemma FilterAt<T(!new)>(xs: seq<T>, keep: T -> bool, i: nat)
    requires i < |xs|
    ensures Filter(xs[i..], keep) == (if keep(xs[i]) then [xs[i]] else []) + Filter(xs[i + 1..], keep)
  {
    assert xs[i..][1..] == xs[i + 1..];
  }

  // ---- stable sorting by an integer key ------------------------------------------

  /** Insertion after every element whose key is not larger. */
  function Insert<T(!new)>(sorted: seq<T>, x: T, key: T -> int): (r: seq<T>)
    ensures |r| == |sorted| + 1
  {
    if sorted == [] || key(sorted[|sorted| - 1]) <= key(x) then sorted + [x]
    else Insert(sorted[..|sorted| - 1], x, key) + [sorted[|sorted| - 1]]
  }

  function SortBy<T(!new)>(xs: seq<T>, key: T -> int): (r: seq<T>)
    ensures |r| == |xs|
  {
    if xs == [] then [] else Insert(SortBy(xs[..|xs| - 1], key), xs[|xs| - 1], key)
  }

  ghost predicate Sorted<T(!new)>(xs: seq<T>, key: T -> int) {
    forall i, j :: 0 <= i < j < |xs| ==> key(xs[i]) <= key(xs[j])
  }

  lemma {:induction false} InsertMembers<T(!new)>(sorted: seq<T>, x: T, key: T -> int)
    ensures forall y :: y in Insert(sorted, x, key) <==> y in sorted || y == x
  {
    if !(sorted == [] || key(sorted[|sorted| - 1]) <= key(x)) {
      InsertMembers(sorted[..|sorted| - 1], x, key);
      assert sorted == sorted[..|sorted| - 1] + [sorted[|sorted| - 1]];
    }
  }

  lemma {:induction false} InsertSorted<T(!new)>(sorted: seq<T>, x: T, key: T -> int)
    requires Sorted(sorted, key)
    ensures Sorted(Insert(sorted, x, key), key)
  {
    if !(sorted == [] || key(sorted[|sorted| - 1]) <= key(x)) {
      var init := sorted[..|sorted| - 1];
      InsertSorted(init, x, key);
      InsertMembers(init, x, key);
      var r := Insert(init, x, key);
      forall i | 0 <= i < |r| ensures key(r[i]) <= key(sorted[|sorted| - 1]) {
        assert r[i] in r;
      }
    }
  }

  /** Sorting keeps the elements and puts them in order. */
  lemma {:induction false} SortSorts<T(!new)>(xs: seq<T>, key: T -> int)
    ensures Sorted(SortBy(xs, key), key)
    ensures forall x :: x in SortBy(xs, key) <==> x in xs
  {
    if xs != [] {
      var init, last := xs[..|xs| - 1], xs[|xs| - 1];
      SortSorts(init, key);
      InsertSorted(SortBy(init, key), last, key);
      InsertMembers(SortBy(init, key), last, key);
      assert xs == init + [last];
    }
  }
}
