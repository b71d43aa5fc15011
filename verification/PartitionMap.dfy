/** Cluster members, the ring they share and the partition table. */
module PartitionMap {
  import opened Basics
  import opened Ordered
  import opened Ring
  import P = Placement

  /** Lexicographic order of node ids. */
  predicate Less(a: Id, b: Id) {
    |b| > 0 && (|a| == 0 || a[0] < b[0] || (a[0] == b[0] && Less(a[1..], b[1..])))
  }

  lemma {:induction false} LessAsymmetric(a: Id, b: Id)
    requires Less(a, b)
    ensures !Less(b, a)
  {
    if |a| > 0 && a[0] == b[0] { LessAsymmetric(a[1..], b[1..]); }
  }

  lemma {:induction false} LessTotal(a: Id, b: Id)
    ensures a == b || Less(a, b) || Less(b, a)
  {
    if |a| > 0 && |b| > 0 && a[0] == b[0] {
      LessTotal(a[1..], b[1..]);
      assert a == [a[0]] + a[1..] && b == [b[0]] + b[1..];
    }
  }

  lemma {:induction false} LessTransitive(a: Id, b: Id, c: Id)
    requires Less(a, b) && Less(b, c)
    ensures Less(a, c)
  {
    if |a| > 0 && a[0] == b[0] == c[0] { LessTransitive(a[1..], b[1..], c[1..]); }
  }

  lemma LessIsStrict()
    ensures Asymmetric(Less) && StrictTotal(Less)
  {
    forall a, b | Less(a, b) ensures !Less(b, a) { LessAsymmetric(a, b); }
    forall a, b ensures a == b || Less(a, b) || Less(b, a) { LessTotal(a, b); }
    forall a, b, c | Less(a, b) && Less(b, c) ensures Less(a, c) { LessTransitive(a, b, c); }
  }

  // ----- members and the replicas of a key

  datatype Member = Member(rack: string, active: bool)

  type Members = map<Id, Member>

  function Listed(members: Members, ids: seq<Id>): seq<P.Node>
    requires forall id :: id in ids ==> id in members
  {
    seq(|ids|, i requires 0 <= i < |ids| => P.Node(ids[i], members[ids[i]].rack))
  }

  lemma ListedDistinct(members: Members, ids: seq<Id>)
    requires (forall id :: id in ids ==> id in members) && NoRepeats(ids)
    ensures P.Distinct(Listed(members, ids))
  {
    forall i, j | 0 <= i < j < |ids| ensures P.Differ(Listed(members, ids), i, j) {}
  }

  lemma DroppedPick(members: Members, next: Members, was: seq<Id>, now: seq<Id>, p: nat, rf: nat, i: nat)
    requires p < |now| && was == Dropped(now, p) && NoRepeats(now) && i < |was|
    requires (forall id :: id in now ==> id in next) && (forall id :: id in was ==> id in members && id in next && next[id] == members[id])
    ensures was[i] in P.Pick(Listed(next, now), rf).seen ==> was[i] in P.Pick(Listed(members, was), rf).seen
  {
    var a, b := Listed(members, was), Listed(next, now);
    forall k | 0 <= k < |a| ensures a[k] == b[P.Moved(p, k)] { assert was[k] in was; }
    ListedDistinct(next, now);
    P.OnlyNewGains(a, b, p, rf, i);
  }

  lemma OrderNoRepeats(points: Points, h: nat, ids: seq<Id>)
    requires OnCircle(points) && h < CIRCLE && OrderOf(points, h, ids)
    ensures NoRepeats(ids)
  {}

  /** Adding member `x` hands keys to `x` only: whoever replicates a hash
      afterwards, other than `x`, did so before. */
  lemma OnlyNewMemberGains(hash: Hash, n: nat, points: Points, members: Members, x: Id, m: Member, h: nat, rf: nat,
                           was: seq<Id>, now: seq<Id>, id: Id)
    requires n > 0 && points.Values == members.Keys && x !in members && Free(hash, n, points, x) && h < CIRCLE
    requires OnCircle(points) && OrderOf(points, h, was) && id in members
    requires OnCircle(Added(hash, points, x, n)) && OrderOf(Added(hash, points, x, n), h, now)
    ensures (forall i :: i in was ==> i in members) && (forall i :: i in now ==> i in members[x := m])
    ensures id in P.Pick(Listed(members[x := m], now), rf).seen ==> id in P.Pick(Listed(members, was), rf).seen
  {
    AddedValues(hash, n, points, x);
    var p := OrderAfterAdd(hash, n, points, x, h, was, now);
    OrderNoRepeats(Added(hash, points, x, n), h, now);
    var i :| 0 <= i < |was| && was[i] == id;
    DroppedPick(members, members[x := m], was, now, p, rf, i);
  }

  // ----- the partition table

  const MAX64: nat := CIRCLE - 1

  /** Hashes `start` up to but not including `end`. */
  datatype Partition = Partition(start: nat, end: nat, primary: Id, replicas: seq<Id>, version: nat)

  type Table = map<nat, Partition>

  function Bound(i: nat, width: nat): nat { i * width }

  function Width(count: nat): nat
    requires count > 0
  {
    MAX64 / count
  }

  ghost predicate Spans(p: Partition, i: nat, width: nat) { p.start == Bound(i, width) && p.end == Bound(i + 1, width) }

  ghost predicate EntryOk(list: seq<P.Node>, rf: nat, count: nat, version: nat, t: Table, i: nat)
    requires |list| > 0 && i < count
  {
    var r := P.Pick(P.Turned(list, i % |list|), rf).replicas;
    && i in t && |r| > 0 && t[i].primary == r[0] && t[i].replicas == r[1..] && t[i].version == version
    && Spans(t[i], i, Width(count))
  }

  /** The first `i` partitions are in the table. */
  ghost predicate Filled(list: seq<P.Node>, rf: nat, count: nat, version: nat, t: Table, i: nat)
    requires |list| > 0 && i <= count
  {
    && (forall k :: k in t ==> k < i)
    && (forall k :: 0 <= k < i ==> EntryOk(list, rf, count, version, t, k))
  }

  lemma FilledStep(list: seq<P.Node>, rf: nat, count: nat, version: nat, t: Table, i: nat, entry: Partition)
    requires |list| > 0 && i < count && Filled(list, rf, count, version, t, i)
    requires EntryOk(list, rf, count, version, map[i := entry], i)
    ensures Filled(list, rf, count, version, t[i := entry], i + 1)
  {
    var t' := t[i := entry];
    forall k | 0 <= k < i + 1 ensures EntryOk(list, rf, count, version, t', k) {
      if k < i { assert EntryOk(list, rf, count, version, t, k); }
    }
  }

  /** One partition of the table. */
  method Entry(list: seq<P.Node>, rf: nat, count: nat, version: nat, i: nat) returns (p: Partition)
    requires |list| > 0 && P.Distinct(list) && rf > 0 && i < count
    ensures EntryOk(list, rf, count, version, map[i := p], i)
  {
    var start := i % |list|;
    var replicas := P.PickReplicas(list, start, rf);
    P.TurnedDistinct(list, start);
    P.PickShape(P.Turned(list, start), rf);
    var width := Width(count);
    p := Partition(Bound(i, width), Bound(i + 1, width), replicas[0], replicas[1..], version);
  }

  ghost predicate TableOk(list: seq<P.Node>, rf: nat, count: nat, version: nat, t: Table)
    requires |list| > 0
  {
    Filled(list, rf, count, version, t, count)
  }

  /** The active members in order of id. */
  ghost predicate ActiveOrder(members: Members, ids: seq<Id>) {
    Ascending(Less, ids) && forall id :: id in ids <==> id in members && members[id].active
  }

  lemma ActiveDistinct(members: Members, ids: seq<Id>)
    requires ActiveOrder(members, ids)
    ensures P.Distinct(Listed(members, ids))
  {
    LessIsStrict();
    forall i, j | 0 <= i < j < |ids| ensures ids[i] != ids[j] { assert Less(ids[i], ids[j]); }
    ListedDistinct(members, ids);
  }

  /** Whoever computes the table from the same members gets the same table. */
  lemma TablesAgree(members: Members, a: seq<Id>, b: seq<Id>, rf: nat, count: nat, version: nat, t: Table, t': Table)
    requires ActiveOrder(members, a) && ActiveOrder(members, b) && |a| > 0 && |b| > 0
    requires TableOk(Listed(members, a), rf, count, version, t) && TableOk(Listed(members, b), rf, count, version, t')
    ensures a == b && t == t'
  {
    LessIsStrict();
    AscendingUnique(Less, a, b, 0);
    var list := Listed(members, a);
    forall i | 0 <= i < count ensures i in t && i in t' && t[i] == t'[i] {
      assert EntryOk(list, rf, count, version, t, i) && EntryOk(list, rf, count, version, t', i);
    }
  }

  lemma Multiple(i: nat, j: nat, w: nat)
    requires i <= j
    ensures i * w <= j * w
  {
    assert j * w == i * w + (j - i) * w;
  }

  ghost predicate InRange(t: Table, i: nat, h: nat) { i in t && t[i].start <= h < t[i].end }

  /** Ranges do not overflow 64 bits and do not overlap. */
  lemma RangesFit(i: nat, j: nat, w: nat, count: nat, p: Partition, q: Partition)
    requires i < j < count && Spans(p, i, w) && Spans(q, j, w)
    ensures p.start <= p.end <= q.start <= q.end <= count * w && (j == i + 1 ==> p.end == q.start)
  {
    Multiple(i, i + 1, w);
    Multiple(i + 1, j, w);
    Multiple(j, j + 1, w);
    Multiple(j + 1, count, w);
  }

  lemma Division(a: nat, b: nat)
    requires b > 0
    ensures b * (a / b) + a % b == a && a % b < b
  {}

  /** A hash is in at most one partition, and in one exactly when it is below the
      last `2^64 - 1 mod count` hashes and the very last one. */
  lemma RangesTile(list: seq<P.Node>, rf: nat, count: nat, version: nat, t: Table, h: nat)
    requires |list| > 0 && count > 0 && TableOk(list, rf, count, version, t)
    ensures forall i: nat, j: nat :: InRange(t, i, h) && InRange(t, j, h) ==> i == j
    ensures (exists i: nat :: InRange(t, i, h)) <==> h + MAX64 % count < MAX64
  {
    var w := Width(count);
    Division(MAX64, count);
    forall i: nat, j: nat | InRange(t, i, h) && InRange(t, j, h) ensures i == j {
      assert EntryOk(list, rf, count, version, t, i) && EntryOk(list, rf, count, version, t, j);
      if i < j { RangesFit(i, j, w, count, t[i], t[j]); } else if j < i { RangesFit(j, i, w, count, t[j], t[i]); }
    }
    if i: nat :| InRange(t, i, h) {
      assert EntryOk(list, rf, count, version, t, i);
      Multiple(i + 1, count, w);
    }
    if h < count * w {
      var i := Slot(h, w, count);
      assert EntryOk(list, rf, count, version, t, i);
      assert InRange(t, i, h);
    }
  }

  /** With 256 partitions the last 256 hashes are in none, the one before them is in one. */
  lemma TopHashExample(list: seq<P.Node>, rf: nat, version: nat, t: Table)
    requires |list| > 0 && TableOk(list, rf, 256, version, t)
    ensures forall i: nat :: !InRange(t, i, 0xFFFF_FFFF_FFFF_FFFF) && !InRange(t, i, 0xFFFF_FFFF_FFFF_FF00)
    ensures exists i: nat :: InRange(t, i, 0xFFFF_FFFF_FFFF_FEFF)
  {
    assert MAX64 % 256 == 255;
    RangesTile(list, rf, 256, version, t, 0xFFFF_FFFF_FFFF_FFFF);
    RangesTile(list, rf, 256, version, t, 0xFFFF_FFFF_FFFF_FF00);
    RangesTile(list, rf, 256, version, t, 0xFFFF_FFFF_FFFF_FEFF);
  }

  /** Neighbouring ranges meet, the first starts at 0 and none passes 64 bits. */
  lemma RangesJoin(list: seq<P.Node>, rf: nat, count: nat, version: nat, t: Table, i: nat)
    requires |list| > 0 && i < count && TableOk(list, rf, count, version, t)
    ensures i in t && t[i].start <= t[i].end <= MAX64 && (i == 0 ==> t[i].start == 0)
    ensures i + 1 < count ==> i + 1 in t && t[i + 1].start == t[i].end
  {
    var w := Width(count);
    assert EntryOk(list, rf, count, version, t, i);
    Division(MAX64, count);
    Multiple(i, i + 1, w);
    Multiple(i + 1, count, w);
    if i + 1 < count { assert EntryOk(list, rf, count, version, t, i + 1); }
  }

  lemma Slot(h: nat, w: nat, count: nat) returns (i: nat)
    requires h < count * w
    ensures i < count && i * w <= h < (i + 1) * w
  {
    i := 0;
    while (i + 1) * w <= h
      invariant i < count && i * w <= h
      decreases count - i
    {
      i := i + 1;
    }
  }

  ghost function Led(t: Table, count: nat, id: Id): set<nat> { set i | 0 <= i < count && i in t && t[i].primary == id }

  ghost function Slots(count: nat, n: nat, j: nat): set<nat>
    requires n > 0
  {
    set i | 0 <= i < count && i % n == j
  }

  lemma DivStep(q: nat, n: nat, d: nat, r: nat)
    requires r < n && q == n * d + r
    ensures q / n == d && q % n == r
    ensures (q + 1) / n == (if r == n - 1 then d + 1 else d) && (q + 1) % n == if r == n - 1 then 0 else r + 1
  {
    Exactly(q, n, d, r);
    if r == n - 1 {
      assert n * (d + 1) == n * d + n;
      Exactly(q + 1, n, d + 1, 0);
    } else {
      Exactly(q + 1, n, d, r + 1);
    }
  }

  lemma Exactly(a: nat, b: nat, q: nat, r: nat)
    requires r < b && a == b * q + r
    ensures a / b == q && a % b == r
  {
    Division(a, b);
    if a / b < q { Multiple(a / b + 1, q, b); } else if q < a / b { Multiple(q + 1, a / b, b); }
  }

  lemma {:induction false} SlotCount(count: nat, n: nat, j: nat)
    requires j < n
    ensures |Slots(count, n, j)| == count / n + if j < count % n then 1 else 0
  {
    if count == 0 {
      assert Slots(0, n, j) == {};
    } else {
      var q := count - 1;
      SlotCount(q, n, j);
      Division(q, n);
      DivStep(q, n, q / n, q % n);
      if q % n == j {
        assert Slots(count, n, j) == Slots(q, n, j) + {q};
      } else {
        assert Slots(count, n, j) == Slots(q, n, j);
      }
    }
  }

  lemma PrimaryIs(list: seq<P.Node>, rf: nat, count: nat, version: nat, t: Table, i: nat)
    requires |list| > 0 && P.Distinct(list) && i < count && EntryOk(list, rf, count, version, t, i)
    ensures t[i].primary == list[i % |list|].id
  {
    var start := i % |list|;
    P.TurnedDistinct(list, start);
    P.PickShape(P.Turned(list, start), rf);
    Wrap(start, |list|);
  }

  /** Every active member leads count / members partitions, or one more. */
  lemma Balanced(list: seq<P.Node>, rf: nat, count: nat, version: nat, t: Table, j: nat)
    requires |list| > 0 && P.Distinct(list) && TableOk(list, rf, count, version, t) && j < |list|
    ensures |Led(t, count, list[j].id)| == count / |list| + if j < count % |list| then 1 else 0
  {
    forall i | 0 <= i < count ensures i in t && (t[i].primary == list[j].id <==> i % |list| == j) {
      assert EntryOk(list, rf, count, version, t, i);
      PrimaryIs(list, rf, count, version, t, i);
      var k := i % |list|;
      if k < j { assert P.Differ(list, k, j); } else if j < k { assert P.Differ(list, j, k); }
    }
    assert Led(t, count, list[j].id) == Slots(count, |list|, j);
    SlotCount(count, |list|, j);
  }

  /** Every partition has min(rf, members) distinct replicas on min(rf, racks) racks. */
  lemma Spread(list: seq<P.Node>, rf: nat, count: nat, version: nat, t: Table, i: nat)
    requires |list| > 0 && P.Distinct(list) && i < count && EntryOk(list, rf, count, version, t, i)
    ensures var all := [t[i].primary] + t[i].replicas;
      && |all| == Min(rf, |list|) && NoRepeats(all)
      && |P.Covered(list, set id | id in all)| == Min(rf, P.Span(list, |list|))
  {
    var start := i % |list|;
    var walk := P.Turned(list, start);
    var d := P.Pick(walk, rf);
    P.TurnedDistinct(list, start);
    P.PickShape(walk, rf);
    P.TurnedRacks(list, start);
    assert [t[i].primary] + t[i].replicas == d.replicas;
    assert (set id | id in d.replicas) == d.seen;
    P.TurnedCovered(list, start, d.seen);
  }

  // ----- the map object

  lemma FullSet(a: set<Id>, b: set<Id>)
    requires a <= b && |a| == |b|
    ensures a == b
  {
    assert b == a + (b - a);
  }

  /** As many owners as there are members are all of them. */
  lemma NearestAll(points: Points, h: nat, ids: seq<Id>, members: set<Id>)
    requires OnCircle(points) && h < CIRCLE && Nearest(points, h, ids) && points.Values <= members
    requires |ids| < |members| ==> forall id :: id in points.Values ==> id in ids
    requires |ids| <= |members|
    ensures OrderOf(points, h, ids)
  {
    forall i, j | 0 <= i < j < |ids| ensures ids[i] != ids[j] { assert ids[i] in ids && ids[j] in ids; }
    CountDistinct(ids);
    if |ids| == |members| { FullSet((set id | id in ids), members); }
  }

  class PartitionMap {
    var nodes: Members
    const ring: ConsistentHashRing
    const replicationFactor: nat
    var partitions: Table
    var version: nat
    var configuredPartitions: nat

    /** Every point belongs to a member. */
    ghost predicate Valid()
      reads this, ring
    {
      ring.Valid() && ring.virtualNodes.Values <= nodes.Keys
    }

    /** Every member has all its points: no two labels collided. */
    ghost predicate Full()
      reads this, ring
    {
      Holds(ring.hash, ring.replicas, ring.virtualNodes, nodes.Keys)
    }

    constructor (replicationFactor: nat, virtualNodesPerNode: nat, partitionCount: nat, hash: Hash)
      requires HashOk(hash)
      ensures Valid() && Full() && nodes == map[] && fresh(ring) && ring.hash == hash && ring.replicas == virtualNodesPerNode
    {
      nodes, partitions, version, configuredPartitions := map[], map[], 0, partitionCount;
      this.replicationFactor := replicationFactor;
      ring := new ConsistentHashRing(virtualNodesPerNode, hash);
    }

    method AddNode(nodeID: Id, rack: string) returns (ok: bool)
      requires Valid()
      modifies this, ring
      ensures Valid() && ok == (nodeID !in old(nodes))
      ensures ok ==> nodes == old(nodes)[nodeID := Member(rack, true)]
      ensures ok ==> ring.virtualNodes == Added(ring.hash, old(ring.virtualNodes), nodeID, ring.replicas)
      ensures !ok ==> nodes == old(nodes) && ring.virtualNodes == old(ring.virtualNodes)
      ensures ok && old(Full()) ==> (Full() <==> Free(ring.hash, ring.replicas, old(ring.virtualNodes), nodeID))
      ensures partitions == old(partitions) && version == old(version) + if ok then 1 else 0
    {
      if nodeID in nodes { return false; }
      ghost var before := nodes.Keys;
      if Full() { AddedHolds(ring.hash, ring.replicas, ring.virtualNodes, before, nodeID); }
      AddedWithin(ring.hash, ring.replicas, ring.virtualNodes, nodeID);
      nodes := nodes[nodeID := Member(rack, true)];
      assert nodes.Keys == before + {nodeID};
      ring.AddNode(nodeID);
      version := version + 1;
      ok := true;
    }

    method RemoveNode(nodeID: Id) returns (ok: bool)
      requires Valid()
      modifies this, ring
      ensures Valid() && ok == (nodeID in old(nodes))
      ensures ok ==> nodes == old(nodes) - {nodeID} && ring.virtualNodes == Without(old(ring.virtualNodes), nodeID)
      ensures !ok ==> nodes == old(nodes) && ring.virtualNodes == old(ring.virtualNodes)
      ensures old(Full()) ==> Full()
      ensures partitions == old(partitions) && version == old(version) + if ok then 1 else 0
    {
      if nodeID !in nodes { return false; }
      ghost var before := nodes.Keys;
      if Full() { WithoutHolds(ring.hash, ring.replicas, ring.virtualNodes, before, nodeID); }
      nodes := nodes - {nodeID};
      assert nodes.Keys == before - {nodeID};
      ring.RemoveNode(nodeID);
      version := version + 1;
      ok := true;
    }

    /** The replicas of the key with hash `h`: its ring order, then the rack-aware choice. */
    method GetReplicasForKey(h: nat) returns (r: Option<seq<Id>>, ghost order: seq<Id>)
      requires Valid() && h < CIRCLE
      ensures r.None? <==> ring.virtualNodes == map[]
      ensures r.Some? ==> OrderOf(ring.virtualNodes, h, order) && forall id :: id in order ==> id in nodes
      ensures r.Some? && Full() ==> forall id :: id in nodes ==> id in order
      ensures r.Some? ==> r.value == P.Pick(Listed(nodes, order), replicationFactor).replicas
    {
      var found := ring.GetNodeWithReplicas(h, |nodes|);
      if found.None? { return None, []; }
      order := found.value;
      ghost var p :| p in ring.virtualNodes;
      assert ring.virtualNodes[p] in ring.virtualNodes.Values;
      if Full() {
        var i :| Label(ring.hash, ring.replicas, p, ring.virtualNodes[p], i);
        HoldsOnCircle(ring.hash, ring.replicas, ring.virtualNodes, nodes.Keys);
      }
      assert |nodes.Keys| == |nodes|;
      NearestAll(ring.virtualNodes, h, order, nodes.Keys);
      var list := Materialize(found.value);
      P.TurnedZero(list);
      var replicas := P.PickReplicas(list, 0, replicationFactor);
      r := Some(replicas);
    }

    /** The members among `ids`, as nodes. */
    method Materialize(ids: seq<Id>) returns (list: seq<P.Node>)
      ensures (forall id :: id in ids ==> id in nodes) ==> list == Listed(nodes, ids)
    {
      list := [];
      for i := 0 to |ids|
        invariant (forall k :: 0 <= k < i ==> ids[k] in nodes) ==> |list| == i
        invariant (forall k :: 0 <= k < i ==> ids[k] in nodes) ==> forall k :: 0 <= k < i ==> list[k] == P.Node(ids[k], nodes[ids[k]].rack)
      {
        if ids[i] in nodes { list := list + [P.Node(ids[i], nodes[ids[i]].rack)]; }
      }
    }

    /** The active members, in order of id. */
    method ActiveIds() returns (ids: seq<Id>)
      ensures ActiveOrder(nodes, ids)
    {
      ids := [];
      var left := nodes.Keys;
      while left != {}
        invariant left <= nodes.Keys && NoRepeats(ids)
        invariant forall id :: id in ids <==> id in nodes.Keys - left && nodes[id].active
        decreases |left|
      {
        var id :| id in left;
        if nodes[id].active { ids := ids + [id]; }
        left := left - {id};
      }
      LessIsStrict();
      SortOk(Less, ids);
      ids := Sort(Less, ids);
    }

    /** Redistribute the partitions over the active members. */
    method Rebalance(partitionCount: nat) returns (ok: bool, ghost order: seq<Id>)
      requires replicationFactor > 0
      modifies `partitions, `version, `configuredPartitions
      ensures ActiveOrder(nodes, order) && ok == (order != [])
      ensures ok ==> TableOk(Listed(nodes, order), replicationFactor, partitionCount, old(version), partitions)
      ensures ok ==> version == old(version) + 1 && configuredPartitions == partitionCount
      ensures !ok ==> partitions == old(partitions) && version == old(version) && configuredPartitions == old(configuredPartitions)
    {
      var ids := ActiveIds();
      order := ids;
      if |ids| == 0 { return false, order; }
      var list := Materialize(ids);
      ActiveDistinct(nodes, ids);
      partitions := map[];
      for i := 0 to partitionCount
        invariant version == old(version) && Filled(list, replicationFactor, partitionCount, version, partitions, i)
      {
        var entry := Entry(list, replicationFactor, partitionCount, version, i);
        FilledStep(list, replicationFactor, partitionCount, version, partitions, i, entry);
        partitions := partitions[i := entry];
      }
      version := version + 1;
      configuredPartitions := partitionCount;
      ok := true;
    }
  }
}
