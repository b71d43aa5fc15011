/** Sequences in the order of a relation. */
module Ordered {
  import opened Basics

  ghost predicate Ascending<T(!new)>(less: (T, T) -> bool, s: seq<T>) {
    forall i, j :: 0 <= i < j < |s| ==> less(s[i], s[j])
  }

  ghost predicate Asymmetric<T(!new)>(less: (T, T) -> bool) {
    forall x, y :: less(x, y) ==> !less(y, x)
  }

  ghost predicate SameElements<T(!new)>(a: seq<T>, b: seq<T>) { forall x :: x in a <==> x in b }

  lemma SameHead<T(!new)>(less: (T, T) -> bool, a: seq<T>, b: seq<T>, i: nat)
    requires Asymmetric(less) && Ascending(less, a) && Ascending(less, b) && SameElements(a, b)
    requires i < |a| && i <= |b| && forall k :: 0 <= k < i ==> a[k] == b[k]
    ensures i < |b| && less(a[i], b[i]) == false && (b[i] != a[i] ==> less(b[i], a[i]))
  {
    assert !less(a[i], a[i]);
    forall k | 0 <= k < i ensures b[k] != a[i] { assert less(a[k], a[i]); }
    assert a[i] in b;
    var j :| 0 <= j < |b| && b[j] == a[i];
    if i < j { assert less(b[i], b[j]); }
  }

  /** A set has one ascending listing. */
  lemma {:induction false} AscendingUnique<T(!new)>(less: (T, T) -> bool, a: seq<T>, b: seq<T>, i: nat)
    requires Asymmetric(less) && Ascending(less, a) && Ascending(less, b) && SameElements(a, b)
    requires i <= |a| && i <= |b| && forall k :: 0 <= k < i ==> a[k] == b[k]
    ensures a == b
    decreases |a| - i
  {
    if i < |a| {
      SameHead(less, a, b, i);
      SameHead(less, b, a, i);
      AscendingUnique(less, a, b, i + 1);
    } else if i < |b| {
      SameHead(less, b, a, i);
    }
  }

  // ----- sorting

  ghost predicate StrictTotal<T(!new)>(less: (T, T) -> bool) {
    && (forall x, y :: x == y || less(x, y) || less(y, x))
    && (forall x, y, z :: less(x, y) && less(y, z) ==> less(x, z))
  }

  function Insert<T>(less: (T, T) -> bool, s: seq<T>, x: T): seq<T> {
    if s == [] || less(x, s[0]) then [x] + s else [s[0]] + Insert(less, s[1..], x)
  }

  lemma {:induction false} InsertOk<T(!new)>(less: (T, T) -> bool, s: seq<T>, x: T)
    requires StrictTotal(less) && Ascending(less, s) && x !in s
    ensures Ascending(less, Insert(less, s, x)) && forall y :: y in Insert(less, s, x) <==> y == x || y in s
  {
    if s != [] && !less(x, s[0]) {
      InsertOk(less, s[1..], x);
      assert s == [s[0]] + s[1..];
      var rest := Insert(less, s[1..], x);
      forall j | 0 <= j < |rest| ensures less(s[0], rest[j]) { assert rest[j] in rest; }
    }
  }

  /** The elements in ascending order. */
  function Sort<T>(less: (T, T) -> bool, s: seq<T>): seq<T> {
    if s == [] then [] else Insert(less, Sort(less, s[1..]), s[0])
  }

  lemma {:induction false} SortOk<T(!new)>(less: (T, T) -> bool, s: seq<T>)
    requires StrictTotal(less) && NoRepeats(s)
    ensures Ascending(less, Sort(less, s)) && SameElements(Sort(less, s), s)
  {
    if s != [] {
      SortOk(less, s[1..]);
      assert s == [s[0]] + s[1..];
      InsertOk(less, Sort(less, s[1..]), s[0]);
    }
  }
}
