/** Types and small facts every part of the model shares. */
module Basics {

  newtype Byte = x: int | 0 <= x < 256

  type Bytes = seq<Byte>

  /** Servers, members and nodes are named by strings. */
  type Id = string

  datatype Option<+T> = None | Some(value: T)

  function Min(a: nat, b: nat): nat { if a <= b then a else b }

  function Max(a: nat, b: nat): nat { if a <= b then b else a }

  ghost predicate NoRepeats<T>(s: seq<T>) { forall i, j :: 0 <= i < j < |s| ==> s[i] != s[j] }

  lemma SubsetSize<T>(a: set<T>, b: set<T>)
    requires a <= b
    ensures |a| <= |b|
  {
    assert b == a + (b - a);
  }

  lemma Wrap(a: nat, n: nat)
    requires 0 < n && a < 2 * n
    ensures a % n == if a < n then a else a - n
  {
    if a >= n { assert a == n * 1 + (a - n); }
  }

  lemma {:induction false} CountDistinct<T>(s: seq<T>)
    requires NoRepeats(s)
    ensures |set x | x in s| == |s|
  {
    if s != [] {
      var last, front := s[|s| - 1], s[..|s| - 1];
      CountDistinct(front);
      assert (set x | x in s) == (set x | x in front) + {last};
    }
  }

  ghost predicate IsLeast(s: set<nat>, m: nat) { m in s && forall x :: x in s ==> m <= x }

  lemma {:induction false} HasLeast(s: set<nat>)
    requires s != {}
    ensures exists m :: IsLeast(s, m)
    decreases |s|
  {
    var a :| a in s;
    var rest := s - {a};
    if rest == {} {
      forall x | x in s ensures a <= x { assert x == a || x in rest; }
      assert IsLeast(s, a);
    } else {
      HasLeast(rest);
      var m :| IsLeast(rest, m);
      var l := if a <= m then a else m;
      forall x | x in s ensures l <= x { assert x == a || x in rest; }
      assert IsLeast(s, l);
    }
  }

  ghost function Least(s: set<nat>): (m: nat)
    requires s != {}
    ensures IsLeast(s, m)
  {
    HasLeast(s);
    var m :| IsLeast(s, m);
    m
  }
}
