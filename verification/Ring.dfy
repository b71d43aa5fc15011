/** The consistent-hash ring: every member owns some points of a circle of 2^64
    hashes, and a hash belongs to the owner of the first point at or after it. */
module Ring {
  import opened Basics
  import opened Ordered

  const CIRCLE: nat := 0x1_0000_0000_0000_0000

  /** Owner of each point: the virtual nodes of the ring. */
  type Points = map<nat, Id>

  ghost predicate OnCircle(points: Points) { forall p :: p in points ==> p < CIRCLE }

  /** How far clockwise from `h` the point `p` lies. */
  function Dist(h: nat, p: nat): nat
    requires h < CIRCLE && p < CIRCLE
  {
    if p >= h then p - h else p + CIRCLE - h
  }

  ghost function Distances(points: Points, h: nat, id: Id): set<nat>
    requires OnCircle(points) && h < CIRCLE
  {
    set p | p in points && points[p] == id :: Dist(h, p)
  }

  /** Distance from `h` to the nearest point of member `id`. */
  ghost function Rank(points: Points, h: nat, id: Id): nat
    requires OnCircle(points) && h < CIRCLE && id in points.Values
  {
    var p :| p in points && points[p] == id;
    assert Dist(h, p) in Distances(points, h, id);
    Least(Distances(points, h, id))
  }

  lemma RankOf(points: Points, h: nat, p: nat)
    requires OnCircle(points) && h < CIRCLE && p in points
    requires forall q :: q in points && points[q] == points[p] ==> Dist(h, p) <= Dist(h, q)
    ensures points[p] in points.Values && Rank(points, h, points[p]) == Dist(h, p)
  {
    assert points[p] in points.Values;
    assert Dist(h, p) in Distances(points, h, points[p]);
  }

  lemma RankAt(points: Points, h: nat, id: Id) returns (p: nat)
    requires OnCircle(points) && h < CIRCLE && id in points.Values
    ensures p in points && points[p] == id && Dist(h, p) == Rank(points, h, id)
  {
    p :| p in points && points[p] == id && Dist(h, p) == Rank(points, h, id);
  }

  /** The members of `ids` are in order of rank, and nobody else comes before any. */
  ghost predicate Nearest(points: Points, h: nat, ids: seq<Id>)
    requires OnCircle(points) && h < CIRCLE
  {
    && (forall id :: id in ids ==> id in points.Values)
    && (forall i, j :: 0 <= i < j < |ids| ==> Rank(points, h, ids[i]) < Rank(points, h, ids[j]))
    && (forall i, id :: 0 <= i < |ids| && id in points.Values && id !in ids ==> Rank(points, h, ids[i]) < Rank(points, h, id))
  }

  // ----- the ring in memory: points, and their hashes in order

  ghost predicate Sorted(keys: seq<nat>) { forall i, j :: 0 <= i < j < |keys| ==> keys[i] <= keys[j] }

  ghost predicate Ok(points: Points, keys: seq<nat>) {
    && OnCircle(points) && Sorted(keys) && (forall p :: p in keys <==> p in points)
  }

  /** Hashes in ascending order, equal ones side by side. */
  function SortKeys(keys: seq<nat>): seq<nat> { Sort((a: nat, b: nat) => a < b, keys) }

  lemma {:induction false} InsertSorted(less: (nat, nat) -> bool, keys: seq<nat>, k: nat)
    requires Sorted(keys) && forall a, b :: less(a, b) <==> a < b
    ensures Sorted(Insert(less, keys, k)) && (forall p :: p in Insert(less, keys, k) <==> p == k || p in keys)
  {
    if keys != [] && !less(k, keys[0]) {
      InsertSorted(less, keys[1..], k);
      assert keys == [keys[0]] + keys[1..];
      var rest := Insert(less, keys[1..], k);
      forall j | 0 <= j < |rest| ensures keys[0] <= rest[j] { assert rest[j] in rest; }
    }
  }

  lemma {:induction false} SortSorted(less: (nat, nat) -> bool, keys: seq<nat>)
    requires forall a, b :: less(a, b) <==> a < b
    ensures Sorted(Sort(less, keys)) && (forall p :: p in Sort(less, keys) <==> p in keys)
  {
    if keys != [] {
      SortSorted(less, keys[1..]);
      InsertSorted(less, Sort(less, keys[1..]), keys[0]);
      assert keys == [keys[0]] + keys[1..];
    }
  }

  lemma SortKeysOk(keys: seq<nat>)
    ensures Sorted(SortKeys(keys)) && (forall p :: p in SortKeys(keys) <==> p in keys)
  {
    SortSorted((a: nat, b: nat) => a < b, keys);
  }

  // ----- looking a hash up

  /** The points in clockwise order from position `idx` of the sorted hashes. */
  ghost function Clockwise(keys: seq<nat>, idx: nat): seq<nat>
    requires idx <= |keys|
  {
    seq(|keys|, k requires 0 <= k < |keys| => keys[Position(|keys|, idx, k)])
  }

  function Position(n: nat, idx: nat, k: nat): (r: nat)
    requires idx <= n && k < n
    ensures r < n
  {
    if idx + k < n then idx + k else idx + k - n
  }

  /** `idx` is where the hashes reach `h`: all of them do, from there on. */
  ghost predicate Splits(keys: seq<nat>, h: nat, idx: nat) {
    idx <= |keys| && (forall i :: 0 <= i < idx ==> keys[i] < h) && (forall i :: idx <= i < |keys| ==> h <= keys[i])
  }

  /** Distances never shrink along the walk that starts at `h`. */
  lemma ClockwiseSorted(points: Points, keys: seq<nat>, h: nat, idx: nat)
    requires Ok(points, keys) && h < CIRCLE && Splits(keys, h, idx)
    ensures |Clockwise(keys, idx)| == |keys| && Rising(points, h, Clockwise(keys, idx))
  {
    var n, walk := |keys|, Clockwise(keys, idx);
    forall k | 0 <= k < n ensures walk[k] in points { assert keys[Position(n, idx, k)] in keys; }
    forall p | p in points ensures p in walk {
      var k :| 0 <= k < n && keys[k] == p;
      assert walk[if k < idx then k + n - idx else k - idx] == p;
    }
    forall i, j | 0 <= i < j < n ensures Dist(h, walk[i]) <= Dist(h, walk[j]) {
      var a, b := Position(n, idx, i), Position(n, idx, j);
      assert walk[i] == keys[a] && walk[j] == keys[b];
      if a < b { assert keys[a] <= keys[b]; }
    }
  }

  ghost predicate Rising(points: Points, h: nat, walk: seq<nat>)
    requires OnCircle(points) && h < CIRCLE
  {
    && (forall k :: 0 <= k < |walk| ==> walk[k] in points) && (forall p :: p in points ==> p in walk)
    && (forall i, j :: 0 <= i < j < |walk| ==> Dist(h, walk[i]) <= Dist(h, walk[j]))
  }

  /** No earlier point on the walk has the owner of point `k`. */
  ghost predicate Fresh(points: Points, walk: seq<nat>, k: nat)
    requires (forall k :: 0 <= k < |walk| ==> walk[k] in points) && k < |walk|
  {
    forall j :: 0 <= j < k ==> points[walk[j]] != points[walk[k]]
  }

  lemma FreshRank(points: Points, h: nat, walk: seq<nat>, k: nat)
    requires OnCircle(points) && h < CIRCLE && Rising(points, h, walk) && k < |walk| && Fresh(points, walk, k)
    ensures points[walk[k]] in points.Values && Rank(points, h, points[walk[k]]) == Dist(h, walk[k])
  {
    forall q | q in points && points[q] == points[walk[k]] ensures Dist(h, walk[k]) <= Dist(h, q) {
      assert q in walk;
      var j :| 0 <= j < |walk| && walk[j] == q;
    }
    RankOf(points, h, walk[k]);
  }

  /** The owners met within the first `i` steps of the walk are `ids`, first met at
      the positions `at`. */
  ghost predicate Met(points: Points, walk: seq<nat>, i: nat, ids: seq<Id>, at: seq<nat>)
    requires (forall k :: 0 <= k < |walk| ==> walk[k] in points) && i <= |walk|
  {
    && |at| == |ids| && (forall k :: 0 <= k < i ==> points[walk[k]] in ids)
    && (forall a :: 0 <= a < |at| ==> at[a] < i && points[walk[at[a]]] == ids[a] && Fresh(points, walk, at[a]))
    && (forall a, b :: 0 <= a < b < |at| ==> at[a] < at[b])
  }

  /** The owner of a later point ranks after the owner of an earlier one. */
  lemma LaterRanksAfter(points: Points, h: nat, walk: seq<nat>, k: nat, id: Id)
    requires OnCircle(points) && h < CIRCLE && Rising(points, h, walk) && k < |walk| && Fresh(points, walk, k)
    requires id in points.Values && forall j :: 0 <= j <= k ==> points[walk[j]] != id
    ensures points[walk[k]] in points.Values && Rank(points, h, points[walk[k]]) < Rank(points, h, id)
  {
    FreshRank(points, h, walk, k);
    var p := RankAt(points, h, id);
    assert p in walk;
    var m :| 0 <= m < |walk| && walk[m] == p;
    assert walk[k] != walk[m];
  }

  lemma MetIsNearest(points: Points, h: nat, walk: seq<nat>, i: nat, ids: seq<Id>, at: seq<nat>)
    requires OnCircle(points) && h < CIRCLE && Rising(points, h, walk) && i <= |walk| && Met(points, walk, i, ids, at)
    ensures Nearest(points, h, ids)
  {
    forall id | id in ids ensures id in points.Values { var a :| 0 <= a < |ids| && ids[a] == id; FreshRank(points, h, walk, at[a]); }
    forall a, b | 0 <= a < b < |ids| ensures Rank(points, h, ids[a]) < Rank(points, h, ids[b]) {
      assert Fresh(points, walk, at[b]);
      LaterRanksAfter(points, h, walk, at[a], ids[b]);
    }
    forall a, id | 0 <= a < |ids| && id in points.Values && id !in ids
      ensures Rank(points, h, ids[a]) < Rank(points, h, id)
    {
      LaterRanksAfter(points, h, walk, at[a], id);
    }
  }

  lemma MetAll(points: Points, walk: seq<nat>, ids: seq<Id>, at: seq<nat>)
    requires (forall k :: 0 <= k < |walk| ==> walk[k] in points) && (forall p :: p in points ==> p in walk)
    requires Met(points, walk, |walk|, ids, at)
    ensures forall id :: id in points.Values ==> id in ids
  {
    forall id | id in points.Values ensures id in ids {
      var p :| p in points && points[p] == id;
      assert p in walk;
    }
  }

  // ----- a ring and its members

  type Hash = (Id, nat) -> nat

  ghost predicate HashOk(hash: Hash) { forall id, i: nat :: hash(id, i) < CIRCLE }

  ghost predicate Label(hash: Hash, n: nat, p: nat, id: Id, i: nat) { i < n && p == hash(id, i) }

  ghost predicate Labelled(hash: Hash, n: nat, p: nat, id: Id) { exists i :: Label(hash, n, p, id, i) }

  /** The points are exactly the `n` labels of each member. */
  ghost predicate Holds(hash: Hash, n: nat, points: Points, members: set<Id>) {
    && (forall p :: p in points ==> points[p] in members && Labelled(hash, n, p, points[p]))
    && (forall id, i: nat :: id in members && i < n ==> hash(id, i) in points && points[hash(id, i)] == id)
  }

  /** Members determine the ring, whatever the order they were added in. */
  lemma HoldsUnique(hash: Hash, n: nat, a: Points, b: Points, members: set<Id>)
    requires Holds(hash, n, a, members) && Holds(hash, n, b, members)
    ensures a == b
  {
    HoldsWithin(hash, n, a, b, members);
    HoldsWithin(hash, n, b, a, members);
  }

  lemma HoldsWithin(hash: Hash, n: nat, a: Points, b: Points, members: set<Id>)
    requires Holds(hash, n, a, members) && Holds(hash, n, b, members)
    ensures forall p :: p in a ==> p in b && b[p] == a[p]
  {
    forall p | p in a ensures p in b && b[p] == a[p] {
      var i :| Label(hash, n, p, a[p], i);
    }
  }

  lemma HoldsOnCircle(hash: Hash, n: nat, points: Points, members: set<Id>)
    requires HashOk(hash) && Holds(hash, n, points, members)
    ensures OnCircle(points) && (n > 0 ==> points.Values == members)
  {
    forall p | p in points ensures p < CIRCLE { var i :| Label(hash, n, p, points[p], i); }
    if n > 0 {
      forall id | id in members ensures id in points.Values { assert points[hash(id, 0)] == id; }
    }
  }

  /** What adding member `x` does to the points, label by label. */
  function Added(hash: Hash, points: Points, x: Id, n: nat): Points {
    if n == 0 then points else Added(hash, points, x, n - 1)[hash(x, n - 1) := x]
  }

  lemma {:induction false} AddedPoint(hash: Hash, points: Points, x: Id, n: nat, p: nat)
    ensures p in Added(hash, points, x, n) <==> p in points || Labelled(hash, n, p, x)
    ensures p in Added(hash, points, x, n) ==>
      Added(hash, points, x, n)[p] == if Labelled(hash, n, p, x) then x else points[p]
  {
    if n > 0 {
      AddedPoint(hash, points, x, n - 1, p);
      if p == hash(x, n - 1) {
        assert Label(hash, n, p, x, n - 1);
      } else if Labelled(hash, n - 1, p, x) {
        var i :| Label(hash, n - 1, p, x, i);
        assert Label(hash, n, p, x, i);
      } else {
        forall i ensures !Label(hash, n, p, x, i) { assert !Label(hash, n - 1, p, x, i); }
      }
    }
  }

  /** No label of `x` is taken. */
  ghost predicate Free(hash: Hash, n: nat, points: Points, x: Id) { forall i: nat :: i < n ==> hash(x, i) !in points }

  lemma FreePoint(hash: Hash, n: nat, points: Points, x: Id, p: nat)
    requires Free(hash, n, points, x) && p in points
    ensures !Labelled(hash, n, p, x)
  {
    forall i ensures !Label(hash, n, p, x, i) {}
  }

  /** The ring keeps every member's points when one more is added, exactly if the new one
      takes none of them. */
  lemma AddedHolds(hash: Hash, n: nat, points: Points, members: set<Id>, x: Id)
    requires Holds(hash, n, points, members) && x !in members
    ensures Holds(hash, n, Added(hash, points, x, n), members + {x}) <==> Free(hash, n, points, x)
  {
    if Free(hash, n, points, x) { FreeHolds(hash, n, points, members, x); } else { TakenFails(hash, n, points, members, x); }
  }

  lemma FreeHolds(hash: Hash, n: nat, points: Points, members: set<Id>, x: Id)
    requires Holds(hash, n, points, members) && Free(hash, n, points, x)
    ensures Holds(hash, n, Added(hash, points, x, n), members + {x})
  {
    var next := Added(hash, points, x, n);
    forall p | p in next ensures next[p] in members + {x} && Labelled(hash, n, p, next[p]) {
      AddedPoint(hash, points, x, n, p);
    }
    forall id, i: nat | id in members + {x} && i < n ensures hash(id, i) in next && next[hash(id, i)] == id {
      AddedPoint(hash, points, x, n, hash(id, i));
      if id == x { assert Label(hash, n, hash(id, i), x, i); } else { FreePoint(hash, n, points, x, hash(id, i)); }
    }
  }

  lemma TakenFails(hash: Hash, n: nat, points: Points, members: set<Id>, x: Id)
    requires Holds(hash, n, points, members) && x !in members && !Free(hash, n, points, x)
    ensures !Holds(hash, n, Added(hash, points, x, n), members + {x})
  {
    var i: nat :| i < n && hash(x, i) in points;
    var p := hash(x, i);
    var id := points[p];
    var j :| Label(hash, n, p, id, j);
    AddedPoint(hash, points, x, n, p);
    assert Label(hash, n, p, x, i);
    assert Added(hash, points, x, n)[hash(id, j)] == x && id in members + {x};
  }

  function Without(points: Points, x: Id): Points { map p | p in points && points[p] != x :: points[p] }

  /** Points taken over are lost to their owner, no more. */
  lemma AddedWithin(hash: Hash, n: nat, points: Points, x: Id)
    ensures Added(hash, points, x, n).Values <= points.Values + {x}
  {
    var next := Added(hash, points, x, n);
    forall p | p in next ensures next[p] in points.Values + {x} { AddedPoint(hash, points, x, n, p); }
  }

  lemma WithoutHolds(hash: Hash, n: nat, points: Points, members: set<Id>, x: Id)
    requires Holds(hash, n, points, members)
    ensures Holds(hash, n, Without(points, x), members - {x})
  {}

  /** Removing a member undoes adding it, exactly if it took no point of another. */
  lemma RemoveUndoesAdd(hash: Hash, n: nat, points: Points, x: Id)
    requires x !in points.Values
    ensures Without(Added(hash, points, x, n), x) == points <==> Free(hash, n, points, x)
  {
    var back := Without(Added(hash, points, x, n), x);
    forall p ensures p in back <==> p in points && !Labelled(hash, n, p, x) {
      AddedPoint(hash, points, x, n, p);
      if p in points { assert points[p] in points.Values; }
    }
    forall p | p in back ensures back[p] == points[p] { AddedPoint(hash, points, x, n, p); }
    if Free(hash, n, points, x) {
      forall p | p in points ensures p in back { FreePoint(hash, n, points, x, p); }
    } else {
      var i: nat :| i < n && hash(x, i) in points;
      assert Label(hash, n, hash(x, i), x, i);
    }
  }

  function PairHash(id: Id, i: nat): nat { if i >= 2 then 0 else if id == "a" then i else 2 + i }

  /** Free labels exist: two members with two labels each. */
  lemma FreeExample()
    ensures HashOk(PairHash) && Added(PairHash, map[], "a", 2) == map[0 := "a", 1 := "a"]
    ensures Holds(PairHash, 2, map[0 := "a", 1 := "a"], {"a"}) && Free(PairHash, 2, map[0 := "a", 1 := "a"], "b")
  {
    assert Added(PairHash, map[], "a", 1) == map[0 := "a"] by { assert Added(PairHash, map[], "a", 0) == map[]; }
    assert Label(PairHash, 2, 0, "a", 0) && Label(PairHash, 2, 1, "a", 1);
  }

  // ----- minimal movement

  ghost function RankOr(points: Points, h: nat, id: Id): nat
    requires OnCircle(points) && h < CIRCLE
  {
    if id in points.Values then Rank(points, h, id) else 0
  }

  ghost predicate OrderOf(points: Points, h: nat, ids: seq<Id>)
    requires OnCircle(points) && h < CIRCLE
  {
    && (forall id :: id in ids <==> id in points.Values)
    && (forall i, j :: 0 <= i < j < |ids| ==> RankOr(points, h, ids[i]) < RankOr(points, h, ids[j]))
  }

  lemma OrderUnique(points: Points, h: nat, a: seq<Id>, b: seq<Id>)
    requires OnCircle(points) && h < CIRCLE && OrderOf(points, h, a) && OrderOf(points, h, b)
    ensures a == b
  {
    AscendingUnique((x, y) => RankOr(points, h, x) < RankOr(points, h, y), a, b, 0);
  }

  /** Points of other members do not move. */
  lemma RankStays(points: Points, next: Points, h: nat, id: Id)
    requires OnCircle(points) && OnCircle(next) && h < CIRCLE && id in points.Values && id in next.Values
    requires forall p :: (p in points && points[p] == id) <==> (p in next && next[p] == id)
    ensures Rank(next, h, id) == Rank(points, h, id)
  {
    assert Distances(next, h, id) == Distances(points, h, id);
  }

  /** The sequence without its element `p`. */
  ghost function Dropped(ids: seq<Id>, p: nat): seq<Id>
    requires p < |ids|
  {
    seq(|ids| - 1, i requires 0 <= i < |ids| - 1 => ids[if i < p then i else i + 1])
  }

  /** The order of every hash after adding `x`, with `x` deleted, is the old order. */
  lemma OrderAfterAdd(hash: Hash, n: nat, points: Points, x: Id, h: nat, was: seq<Id>, now: seq<Id>)
    returns (p: nat)
    requires n > 0 && x !in points.Values && Free(hash, n, points, x) && h < CIRCLE
    requires OnCircle(points) && OrderOf(points, h, was)
    requires OnCircle(Added(hash, points, x, n)) && OrderOf(Added(hash, points, x, n), h, now)
    ensures p < |now| && now[p] == x && was == Dropped(now, p)
  {
    var next, members := Added(hash, points, x, n), points.Values;
    AddedValues(hash, n, points, x);
    assert x in now;
    p :| 0 <= p < |now| && now[p] == x;
    var rest := Dropped(now, p);
    forall id | id in members ensures RankOr(next, h, id) == RankOr(points, h, id) {
      OthersStay(hash, n, points, x, id);
      RankStays(points, next, h, id);
    }
    RestIsOrder(points, next, members, h, now, p, rest);
    OrderUnique(points, h, was, rest);
  }

  lemma AddedValues(hash: Hash, n: nat, points: Points, x: Id)
    requires n > 0 && Free(hash, n, points, x)
    ensures Added(hash, points, x, n).Values == points.Values + {x}
  {
    var next := Added(hash, points, x, n);
    AddedWithin(hash, n, points, x);
    forall id | id in points.Values ensures id in next.Values {
      var p :| p in points && points[p] == id;
      FreePoint(hash, n, points, x, p);
      AddedPoint(hash, points, x, n, p);
      assert next[p] == id;
    }
    AddedPoint(hash, points, x, n, hash(x, 0));
    assert Label(hash, n, hash(x, 0), x, 0);
  }

  lemma OthersStay(hash: Hash, n: nat, points: Points, x: Id, id: Id)
    requires Free(hash, n, points, x) && id != x
    ensures var next := Added(hash, points, x, n);
      forall p :: (p in points && points[p] == id) <==> (p in next && next[p] == id)
  {
    var next := Added(hash, points, x, n);
    forall p ensures (p in points && points[p] == id) <==> (p in next && next[p] == id) {
      AddedPoint(hash, points, x, n, p);
      if p in points { FreePoint(hash, n, points, x, p); }
    }
  }

  lemma RestIsOrder(points: Points, next: Points, members: set<Id>, h: nat, now: seq<Id>, p: nat, rest: seq<Id>)
    requires OnCircle(points) && OnCircle(next) && h < CIRCLE && OrderOf(next, h, now) && p < |now|
    requires points.Values == members && next.Values == members + {now[p]} && now[p] !in members
    requires rest == Dropped(now, p)
    requires forall id :: id in members ==> RankOr(next, h, id) == RankOr(points, h, id)
    ensures OrderOf(points, h, rest)
  {
    forall i | 0 <= i < |now| && i != p ensures now[i] in members {
      assert now[i] in now;
    }
    RestHas(members, now, p, rest);
    RestAscends(id => RankOr(next, h, id), id => RankOr(points, h, id), now, p, rest);
  }

  /** What is left of an ascending sequence ascends, if ranks stay. */
  lemma RestAscends(rank: Id -> nat, rank': Id -> nat, now: seq<Id>, p: nat, rest: seq<Id>)
    requires p < |now| && rest == Dropped(now, p) && (forall i, j :: 0 <= i < j < |now| ==> rank(now[i]) < rank(now[j]))
    requires forall i :: 0 <= i < |now| && i != p ==> rank'(now[i]) == rank(now[i])
    ensures forall i, j :: 0 <= i < j < |rest| ==> rank'(rest[i]) < rank'(rest[j])
  {}

  lemma RestHas(members: set<Id>, now: seq<Id>, p: nat, rest: seq<Id>)
    requires p < |now| && now[p] !in members && (forall id :: id in now <==> id in members + {now[p]}) && rest == Dropped(now, p)
    requires forall i :: 0 <= i < |now| && i != p ==> now[i] in members
    ensures forall id :: id in rest <==> id in members
  {
    forall id | id in members ensures id in rest {
      assert id in now;
      var i :| 0 <= i < |now| && now[i] == id;
      assert rest[if i < p then i else i - 1] == id;
    }
  }

  // ----- the ring object

  class ConsistentHashRing {
    var virtualNodes: Points
    var sortedKeys: seq<nat>
    const replicas: nat
    const hash: Hash

    ghost predicate Valid()
      reads this
    {
      Ok(virtualNodes, sortedKeys) && HashOk(hash)
    }

    constructor (virtualNodesPerNode: nat, hash: Hash)
      requires HashOk(hash)
      ensures Valid() && virtualNodes == map[] && replicas == virtualNodesPerNode && this.hash == hash
    {
      virtualNodes, sortedKeys, replicas, this.hash := map[], [], virtualNodesPerNode, hash;
    }

    method AddNode(nodeID: Id)
      requires Valid()
      modifies this
      ensures Valid() && virtualNodes == Added(hash, old(virtualNodes), nodeID, replicas)
    {
      var keys := sortedKeys;
      for i := 0 to replicas
        invariant virtualNodes == Added(hash, old(virtualNodes), nodeID, i) && OnCircle(virtualNodes)
        invariant forall p :: p in keys <==> p in virtualNodes
      {
        var point := hash(nodeID, i);
        virtualNodes := virtualNodes[point := nodeID];
        keys := keys + [point];
      }
      SortKeysOk(keys);
      sortedKeys := SortKeys(keys);
    }

    method RemoveNode(nodeID: Id)
      requires Valid()
      modifies this
      ensures Valid() && virtualNodes == Without(old(virtualNodes), nodeID)
    {
      var keysToRemove := set p | p in virtualNodes && virtualNodes[p] == nodeID;
      virtualNodes := virtualNodes - keysToRemove;
      assert virtualNodes == Without(old(virtualNodes), nodeID);
      var keys, left := [], virtualNodes.Keys;
      while left != {}
        invariant left <= virtualNodes.Keys && forall p :: p in keys <==> p in virtualNodes.Keys - left
        decreases |left|
      {
        var point :| point in left;
        keys, left := keys + [point], left - {point};
      }
      SortKeysOk(keys);
      sortedKeys := SortKeys(keys);
    }

    /** Binary search for the first hash at or after `h`. */
    method Search(h: nat) returns (idx: nat)
      requires Valid()
      ensures Splits(sortedKeys, h, idx)
    {
      var lo, hi := 0, |sortedKeys|;
      while lo < hi
        invariant 0 <= lo <= hi <= |sortedKeys|
        invariant (forall i :: 0 <= i < lo ==> sortedKeys[i] < h) && (forall i :: hi <= i < |sortedKeys| ==> h <= sortedKeys[i])
      {
        var mid := (lo + hi) / 2;
        if sortedKeys[mid] >= h { hi := mid; } else { lo := mid + 1; }
      }
      idx := lo;
    }

    method GetNode(h: nat) returns (r: Option<Id>)
      requires Valid() && h < CIRCLE
      ensures r.None? <==> virtualNodes == map[]
      ensures r.Some? ==> Nearest(virtualNodes, h, [r.value])
    {
      if |sortedKeys| == 0 { return None; }
      assert sortedKeys[0] in virtualNodes;
      var idx := Search(h);
      ghost var at := idx;
      if idx == |sortedKeys| { idx := 0; }
      ghost var walk := Clockwise(sortedKeys, at);
      ClockwiseSorted(virtualNodes, sortedKeys, h, at);
      assert sortedKeys[idx] == walk[0];
      MetIsNearest(virtualNodes, h, walk, 1, [virtualNodes[walk[0]]], [0]);
      r := Some(virtualNodes[sortedKeys[idx]]);
    }

    /** The first `count` distinct owners clockwise from `h`, or all of them. */
    method GetNodeWithReplicas(h: nat, count: nat) returns (r: Option<seq<Id>>)
      requires Valid() && h < CIRCLE
      ensures r.None? <==> virtualNodes == map[]
      ensures r.Some? ==> Nearest(virtualNodes, h, r.value) && |r.value| <= count
      ensures r.Some? && |r.value| < count ==> forall id :: id in virtualNodes.Values ==> id in r.value
    {
      if |sortedKeys| == 0 { return None; }
      assert sortedKeys[0] in virtualNodes;
      var idx := Search(h);
      ghost var walk := Clockwise(sortedKeys, idx);
      ClockwiseSorted(virtualNodes, sortedKeys, h, idx);
      var start := if idx == |sortedKeys| then 0 else idx;
      var found, at, i := Owners(virtualNodes, sortedKeys, start, count, walk);
      MetIsNearest(virtualNodes, h, walk, i, found, at);
      if |found| < count { MetAll(virtualNodes, walk, found, at); }
      r := Some(found);
    }
  }

  lemma MetStep(points: Points, walk: seq<nat>, i: nat, ids: seq<Id>, at: seq<nat>)
    requires (forall k :: 0 <= k < |walk| ==> walk[k] in points) && i < |walk| && Met(points, walk, i, ids, at)
    ensures var id := points[walk[i]];
      if id in ids then Met(points, walk, i + 1, ids, at) else Met(points, walk, i + 1, ids + [id], at + [i])
  {}

  /** The loop of the lookup: distinct owners along the walk, up to `count`. */
  method Owners(points: Points, keys: seq<nat>, start: nat, count: nat, ghost walk: seq<nat>)
    returns (found: seq<Id>, ghost at: seq<nat>, ghost steps: nat)
    requires start < |keys| == |walk| && forall k :: 0 <= k < |walk| ==> walk[k] in points
    requires forall k :: 0 <= k < |walk| ==> walk[k] == keys[Position(|keys|, start, k)]
    ensures steps <= |walk| && Met(points, walk, steps, found, at) && |found| <= count
    ensures |found| < count ==> steps == |walk|
  {
    var n := |keys|;
    var seen: set<Id> := {};
    found, at := [], [];
    var i := 0;
    while i < n && |found| < count
      invariant i <= n && |found| <= count && Met(points, walk, i, found, at)
      invariant forall id :: id in seen <==> id in found
    {
      Wrap(start + i, n);
      assert (start + i) % n == Position(n, start, i);
      MetStep(points, walk, i, found, at);
      var nodeID := points[keys[(start + i) % n]];
      if nodeID !in seen {
        found := found + [nodeID];
        seen := seen + {nodeID};
        at := at + [i];
      }
      i := i + 1;
    }
    steps := i;
  }
}
