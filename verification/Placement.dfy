/** Rack-aware replica choice: one node per rack first, then whoever is left. */
module Placement {
  import opened Basics

  datatype Node = Node(id: Id, rack: string)

  ghost predicate Differ(nodes: seq<Node>, i: nat, j: nat)
    requires i < |nodes| && j < |nodes|
  {
    nodes[i].id != nodes[j].id
  }

  ghost predicate Distinct(nodes: seq<Node>) {
    forall i, j {:trigger Differ(nodes, i, j)} :: 0 <= i < j < |nodes| ==> Differ(nodes, i, j)
  }

  /** The racks of the first `i` nodes of a walk, and how many they are. */
  ghost function RacksTo(walk: seq<Node>, i: nat): set<string>
    requires i <= |walk|
  {
    if i == 0 then {} else RacksTo(walk, i - 1) + {walk[i - 1].rack}
  }

  ghost function Span(walk: seq<Node>, i: nat): nat
    requires i <= |walk|
  {
    |RacksTo(walk, i)|
  }

  /** No earlier node shares the rack of node `i`. */
  ghost predicate First(walk: seq<Node>, i: nat)
    requires i < |walk|
  {
    walk[i].rack !in RacksTo(walk, i)
  }

  lemma SpanStep(walk: seq<Node>, i: nat)
    requires i < |walk|
    ensures Span(walk, i + 1) == Span(walk, i) + if First(walk, i) then 1 else 0
  {
    if !First(walk, i) { assert RacksTo(walk, i + 1) == RacksTo(walk, i); }
  }

  /** Racks, and nodes that open none, only accumulate along the walk. */
  lemma {:induction false} SpanGrows(walk: seq<Node>, i: nat, j: nat)
    requires i <= j <= |walk|
    ensures Span(walk, i) <= Span(walk, j) <= Span(walk, i) + (j - i)
    decreases j
  {
    if i < j {
      SpanGrows(walk, i, j - 1);
      SpanStep(walk, j - 1);
    }
  }

  // ----- the choice as a function of the order in which nodes are met

  datatype Draw = Draw(replicas: seq<Id>, seen: set<Id>, used: set<string>)

  function Take(d: Draw, n: Node): Draw { Draw(d.replicas + [n.id], d.seen + {n.id}, d.used + {n.rack}) }

  predicate Skipped(d: Draw, pass: nat, n: Node) {
    n.id in d.seen || (pass == 0 && |d.replicas| > 0 && n.rack in d.used)
  }

  function Consider(d: Draw, pass: nat, n: Node): Draw { if Skipped(d, pass, n) then d else Take(d, n) }

  /** One pass over the nodes from position `off` on. */
  ghost function Pass(walk: seq<Node>, want: nat, pass: nat, off: nat, d: Draw): Draw
    requires off <= |walk|
    decreases |walk| - off
  {
    if off == |walk| || |d.replicas| >= want then d else Pass(walk, want, pass, off + 1, Consider(d, pass, walk[off]))
  }

  ghost function Pick(walk: seq<Node>, rf: nat): Draw {
    var want := Min(rf, |walk|);
    Pass(walk, want, 1, 0, Pass(walk, want, 0, 0, Draw([], {}, {})))
  }

  /** What every considered node keeps, a whole pass keeps. */
  lemma {:induction false} PassKeeps(walk: seq<Node>, want: nat, pass: nat, off: nat, d: Draw, inv: (nat, Draw) -> bool)
    returns (end: nat)
    requires off <= |walk| && inv(off, d)
    requires forall o: nat, e: Draw {:trigger Consider(e, pass, walk[o])} ::
      o < |walk| && |e.replicas| < want && inv(o, e) ==> inv(o + 1, Consider(e, pass, walk[o]))
    ensures off <= end <= |walk| && inv(end, Pass(walk, want, pass, off, d))
    ensures end == |walk| || |Pass(walk, want, pass, off, d).replicas| >= want
    decreases |walk| - off
  {
    if off == |walk| || |d.replicas| >= want {
      end := off;
    } else {
      end := PassKeeps(walk, want, pass, off + 1, Consider(d, pass, walk[off]), inv);
    }
  }

  /** The racks of the chosen nodes. */
  ghost function Covered(walk: seq<Node>, ids: set<Id>): set<string> {
    set i | 0 <= i < |walk| && walk[i].id in ids :: walk[i].rack
  }

  /** The bookkeeping of a draw: distinct nodes of the walk, its first one first. */
  ghost predicate Drawn(walk: seq<Node>, d: Draw) {
    && NoRepeats(d.replicas) && |d.seen| == |d.replicas| && (forall id :: id in d.replicas <==> id in d.seen)
    && d.used == Covered(walk, d.seen)
    && (d.replicas != [] ==> walk != [] && d.replicas[0] == walk[0].id)
  }

  lemma CoveredTake(walk: seq<Node>, ids: set<Id>, i: nat)
    requires Distinct(walk) && i < |walk|
    ensures Covered(walk, ids + {walk[i].id}) == Covered(walk, ids) + {walk[i].rack}
  {
    forall j | 0 <= j < |walk| && j != i ensures walk[j].id != walk[i].id {
      if j < i { assert Differ(walk, j, i); } else { assert Differ(walk, i, j); }
    }
  }

  lemma DrawnConsider(walk: seq<Node>, d: Draw, pass: nat, i: nat)
    requires Distinct(walk) && Drawn(walk, d) && i < |walk| && (d.replicas == [] ==> i == 0)
    ensures Drawn(walk, Consider(d, pass, walk[i]))
    ensures Consider(d, pass, walk[i]).replicas != []
    ensures d.replicas <= Consider(d, pass, walk[i]).replicas
  {
    CoveredTake(walk, d.seen, i);
  }

  // ----- which nodes the first pass takes

  /** Node `i` opens a rack, and fewer than `want` racks come before it. */
  ghost predicate Opens(walk: seq<Node>, want: nat, i: nat)
    requires i < |walk|
  {
    First(walk, i) && Span(walk, i) < want
  }

  ghost predicate OpensBelow(walk: seq<Node>, want: nat, off: nat, d: Draw, i: nat)
    requires i < |walk|
  {
    walk[i].id in d.seen <==> i < off && Opens(walk, want, i)
  }

  /** Where the first pass stands after `off` nodes. */
  ghost predicate FirstPass(walk: seq<Node>, want: nat, off: nat, d: Draw)
    requires off <= |walk|
  {
    && |d.replicas| == Min(want, Span(walk, off)) && |d.used| == |d.replicas|
    && (|d.replicas| < want ==> d.used == RacksTo(walk, off))
    && (forall i {:trigger OpensBelow(walk, want, off, d, i)} :: 0 <= i < |walk| ==> OpensBelow(walk, want, off, d, i))
  }

  lemma FirstPassStep(walk: seq<Node>, want: nat, off: nat, d: Draw)
    requires Distinct(walk) && off < |walk| && FirstPass(walk, want, off, d) && |d.replicas| < want
    ensures FirstPass(walk, want, off + 1, Consider(d, 0, walk[off]))
  {
    SpanStep(walk, off);
    assert Opens(walk, want, off) == First(walk, off);
    if !First(walk, off) { assert RacksTo(walk, off + 1) == RacksTo(walk, off); }
    var e, next := Consider(d, 0, walk[off]), off + 1;
    forall i | 0 <= i < |walk| ensures OpensBelow(walk, want, next, e, i) {
      assert OpensBelow(walk, want, off, d, i) && OpensBelow(walk, want, off, d, off);
      if i < off { assert Differ(walk, i, off); } else if i > off { assert Differ(walk, off, i); }
    }
  }

  lemma FirstPassStop(walk: seq<Node>, want: nat, off: nat, d: Draw)
    requires off <= |walk| && FirstPass(walk, want, off, d) && (off == |walk| || |d.replicas| >= want)
    ensures FirstPass(walk, want, |walk|, d)
  {
    SpanGrows(walk, off, |walk|);
    forall i | 0 <= i < |walk| ensures OpensBelow(walk, want, |walk|, d, i) {
      assert OpensBelow(walk, want, off, d, i);
      if off <= i { SpanGrows(walk, off, i); }
    }
  }

  // ----- which nodes the second pass adds

  /** All racks, and the nodes before `i` that open none, leave room for `i`. */
  ghost predicate Fills(walk: seq<Node>, want: nat, i: nat)
    requires i < |walk|
  {
    Span(walk, |walk|) + i < want + Span(walk, i)
  }

  ghost predicate FillsBelow(walk: seq<Node>, want: nat, off: nat, d: Draw, i: nat)
    requires i < |walk|
  {
    walk[i].id in d.seen <==> First(walk, i) || (i < off && Fills(walk, want, i))
  }

  /** Where the second pass stands after `off` nodes. */
  ghost predicate SecondPass(walk: seq<Node>, want: nat, off: nat, d: Draw)
    requires off <= |walk|
  {
    && |d.replicas| <= want
    && (|d.replicas| < want ==> |d.replicas| + Span(walk, off) == Span(walk, |walk|) + off)
    && (|d.replicas| == want ==> want + Span(walk, off) <= Span(walk, |walk|) + off)
    && d.used == RacksTo(walk, |walk|)
    && (forall i {:trigger FillsBelow(walk, want, off, d, i)} :: 0 <= i < |walk| ==> FillsBelow(walk, want, off, d, i))
  }

  lemma {:induction false} RacksWithin(walk: seq<Node>, i: nat, j: nat)
    requires i < j <= |walk|
    ensures walk[i].rack in RacksTo(walk, j)
    decreases j
  {
    if i < j - 1 { RacksWithin(walk, i, j - 1); }
  }

  lemma SecondPassStep(walk: seq<Node>, want: nat, off: nat, d: Draw)
    requires Distinct(walk) && off < |walk| && SecondPass(walk, want, off, d) && |d.replicas| < want
    ensures SecondPass(walk, want, off + 1, Consider(d, 1, walk[off]))
  {
    SpanStep(walk, off);
    RacksWithin(walk, off, |walk|);
    assert Fills(walk, want, off);
    var e, next := Consider(d, 1, walk[off]), off + 1;
    forall i | 0 <= i < |walk| ensures FillsBelow(walk, want, next, e, i) {
      assert FillsBelow(walk, want, off, d, i) && FillsBelow(walk, want, off, d, off);
      if i < off { assert Differ(walk, i, off); } else if i > off { assert Differ(walk, off, i); }
    }
  }

  lemma SecondPassStop(walk: seq<Node>, want: nat, off: nat, d: Draw)
    requires off <= |walk| && SecondPass(walk, want, off, d) && (off == |walk| || |d.replicas| >= want)
    ensures SecondPass(walk, want, |walk|, d)
  {
    SpanGrows(walk, off, |walk|);
    forall i | 0 <= i < |walk| ensures FillsBelow(walk, want, |walk|, d, i) {
      assert FillsBelow(walk, want, off, d, i);
      if off <= i { SpanGrows(walk, off, i); }
    }
  }

  // ----- the whole choice

  /** Who is chosen: a node that opens a rack, if fewer than `rf` racks come
      before it; any other node, if all racks and the earlier such nodes leave room. */
  ghost predicate Chosen(walk: seq<Node>, rf: nat, i: nat)
    requires i < |walk|
  {
    if First(walk, i) then Span(walk, i) < rf else Fills(walk, rf, i)
  }

  /** Both passes together: the first covers every rack unless it fills up. */
  ghost predicate Picked(walk: seq<Node>, want: nat, d: Draw) {
    && |d.replicas| == want
    && if want <= Span(walk, |walk|) then FirstPass(walk, want, |walk|, d) else SecondPass(walk, want, |walk|, d)
  }

  ghost function DrawnInv(walk: seq<Node>): (nat, Draw) -> bool {
    (o: nat, e: Draw) => Drawn(walk, e) && (e.replicas == [] ==> o == 0)
  }

  lemma DrawnEnd(walk: seq<Node>, want: nat, pass: nat, d: Draw)
    requires Distinct(walk) && Drawn(walk, d)
    ensures Drawn(walk, Pass(walk, want, pass, 0, d))
  {
    forall o: nat, e: Draw | o < |walk| && DrawnInv(walk)(o, e) ensures DrawnInv(walk)(o + 1, Consider(e, pass, walk[o])) {
      DrawnConsider(walk, e, pass, o);
    }
    var _ := PassKeeps(walk, want, pass, 0, d, DrawnInv(walk));
  }

  ghost function FirstInv(walk: seq<Node>, want: nat): (nat, Draw) -> bool {
    (o: nat, e: Draw) => o <= |walk| && FirstPass(walk, want, o, e)
  }

  lemma FirstPassEnd(walk: seq<Node>, want: nat, d: Draw)
    requires Distinct(walk) && FirstPass(walk, want, 0, d)
    ensures FirstPass(walk, want, |walk|, Pass(walk, want, 0, 0, d))
  {
    var inv := FirstInv(walk, want);
    forall o: nat, e: Draw | o < |walk| && |e.replicas| < want && inv(o, e) ensures inv(o + 1, Consider(e, 0, walk[o])) {
      FirstPassStep(walk, want, o, e);
    }
    var end := PassKeeps(walk, want, 0, 0, d, inv);
    FirstPassStop(walk, want, end, Pass(walk, want, 0, 0, d));
  }

  ghost function SecondInv(walk: seq<Node>, want: nat): (nat, Draw) -> bool {
    (o: nat, e: Draw) => o <= |walk| && SecondPass(walk, want, o, e)
  }

  lemma SecondPassEnd(walk: seq<Node>, want: nat, d: Draw)
    requires Distinct(walk) && SecondPass(walk, want, 0, d)
    ensures SecondPass(walk, want, |walk|, Pass(walk, want, 1, 0, d))
  {
    var inv := SecondInv(walk, want);
    forall o: nat, e: Draw | o < |walk| && |e.replicas| < want && inv(o, e) ensures inv(o + 1, Consider(e, 1, walk[o])) {
      SecondPassStep(walk, want, o, e);
    }
    var end := PassKeeps(walk, want, 1, 0, d, inv);
    SecondPassStop(walk, want, end, Pass(walk, want, 1, 0, d));
  }

  lemma PickPasses(walk: seq<Node>, rf: nat)
    requires Distinct(walk)
    ensures Picked(walk, Min(rf, |walk|), Pick(walk, rf))
  {
    var want := Min(rf, |walk|);
    var none := Draw([], {}, {});
    forall i | 0 <= i < |walk| ensures OpensBelow(walk, want, 0, none, i) {}
    FirstPassEnd(walk, want, none);
    var d := Pass(walk, want, 0, 0, none);
    if |d.replicas| < want {
      SpanGrows(walk, 0, |walk|);
      forall i | 0 <= i < |walk| ensures FillsBelow(walk, want, 0, d, i) {
        assert OpensBelow(walk, want, |walk|, d, i);
        SpanGrows(walk, i, |walk|);
      }
      SecondPassEnd(walk, want, d);
    }
  }

  /** The choice has min(rf, nodes) distinct nodes on min(rf, racks) racks. */
  lemma PickShape(walk: seq<Node>, rf: nat)
    requires Distinct(walk)
    ensures var d := Pick(walk, rf);
      && Drawn(walk, d) && |d.replicas| == Min(rf, |walk|)
      && |Covered(walk, d.seen)| == Min(rf, Span(walk, |walk|))
  {
    var none := Draw([], {}, {});
    DrawnEnd(walk, Min(rf, |walk|), 0, none);
    DrawnEnd(walk, Min(rf, |walk|), 1, Pass(walk, Min(rf, |walk|), 0, 0, none));
    PickPasses(walk, rf);
    SpanGrows(walk, 0, |walk|);
  }

  lemma PickIff(walk: seq<Node>, rf: nat, i: nat)
    requires Distinct(walk) && i < |walk|
    ensures walk[i].id in Pick(walk, rf).seen <==> Chosen(walk, rf, i)
  {
    var want, d := Min(rf, |walk|), Pick(walk, rf);
    PickPasses(walk, rf);
    SpanGrows(walk, 0, i);
    SpanStep(walk, i);
    SpanGrows(walk, i + 1, |walk|);
    if want <= Span(walk, |walk|) {
      assert OpensBelow(walk, want, |walk|, d, i);
    } else {
      assert FillsBelow(walk, want, |walk|, d, i);
    }
  }

  // ----- in which order they are listed

  /** Nodes that open a rack come first, then the others, each in the order of the walk. */
  ghost predicate Before(walk: seq<Node>, i: nat, j: nat)
    requires i < |walk| && j < |walk|
  {
    if First(walk, i) == First(walk, j) then i < j else First(walk, i)
  }

  /** Place `a` of the list is node `i` of the walk. */
  ghost predicate Sits(walk: seq<Node>, ids: seq<Id>, a: nat, i: nat) { a < |ids| && i < |walk| && ids[a] == walk[i].id }

  ghost predicate Listed(walk: seq<Node>, ids: seq<Id>) {
    forall a: nat, b: nat, i: nat, j: nat {:trigger Sits(walk, ids, a, i), Sits(walk, ids, b, j)} ::
      a < b && Sits(walk, ids, a, i) && Sits(walk, ids, b, j) ==> Before(walk, i, j)
  }

  ghost predicate AllBefore(walk: seq<Node>, ids: seq<Id>, off: nat)
    requires off < |walk|
  {
    forall i :: 0 <= i < |walk| && walk[i].id in ids ==> Before(walk, i, off)
  }

  lemma SameNode(walk: seq<Node>, i: nat, j: nat)
    requires Distinct(walk) && i < |walk| && j < |walk| && walk[i].id == walk[j].id
    ensures i == j
  {
    assert i < j ==> Differ(walk, i, j);
    assert j < i ==> Differ(walk, j, i);
  }

  lemma ListedTake(walk: seq<Node>, ids: seq<Id>, off: nat)
    requires Distinct(walk) && off < |walk| && Listed(walk, ids) && AllBefore(walk, ids, off)
    ensures Listed(walk, ids + [walk[off].id])
  {
    var next := ids + [walk[off].id];
    forall a: nat, b: nat, i: nat, j: nat | a < b && Sits(walk, next, a, i) && Sits(walk, next, b, j) ensures Before(walk, i, j) {
      assert Sits(walk, ids, a, i) && ids[a] in ids;
      if b < |ids| { assert Sits(walk, ids, b, j); } else { SameNode(walk, j, off); }
    }
  }

  /** Of the two passes, what is needed of the draw before node `off`. */
  lemma FirstBefore(walk: seq<Node>, want: nat, off: nat, e: Draw)
    requires Distinct(walk) && off < |walk| && FirstPass(walk, want, off, e) && Drawn(walk, e) && |e.replicas| < want && !Skipped(e, 0, walk[off])
    ensures AllBefore(walk, e.replicas, off)
  {
    FirstPassStep(walk, want, off, e);
    assert OpensBelow(walk, want, off + 1, Take(e, walk[off]), off);
    forall i | 0 <= i < |walk| && walk[i].id in e.replicas ensures Before(walk, i, off) { assert OpensBelow(walk, want, off, e, i); }
  }

  lemma SecondBefore(walk: seq<Node>, want: nat, off: nat, e: Draw)
    requires off < |walk| && SecondPass(walk, want, off, e) && Drawn(walk, e) && !Skipped(e, 1, walk[off])
    ensures AllBefore(walk, e.replicas, off)
  {
    assert FillsBelow(walk, want, off, e, off);
    forall i | 0 <= i < |walk| && walk[i].id in e.replicas ensures Before(walk, i, off) { assert FillsBelow(walk, want, off, e, i); }
  }

  /** A draw is well kept, listed in order, and where its pass stands. */
  ghost function ListedInv(walk: seq<Node>, stands: (nat, Draw) -> bool): (nat, Draw) -> bool {
    (o: nat, e: Draw) => stands(o, e) && DrawnInv(walk)(o, e) && Listed(walk, e.replicas)
  }

  lemma FirstInvStep(walk: seq<Node>, want: nat, o: nat, e: Draw)
    requires Distinct(walk) && o < |walk| && |e.replicas| < want && FirstInv(walk, want)(o, e)
    ensures FirstInv(walk, want)(o + 1, Consider(e, 0, walk[o]))
  {
    FirstPassStep(walk, want, o, e);
  }

  lemma SecondInvStep(walk: seq<Node>, want: nat, o: nat, e: Draw)
    requires Distinct(walk) && o < |walk| && |e.replicas| < want && SecondInv(walk, want)(o, e)
    ensures SecondInv(walk, want)(o + 1, Consider(e, 1, walk[o]))
  {
    SecondPassStep(walk, want, o, e);
  }

  lemma DrawnInvStep(walk: seq<Node>, pass: nat, o: nat, e: Draw)
    requires Distinct(walk) && o < |walk| && DrawnInv(walk)(o, e)
    ensures DrawnInv(walk)(o + 1, Consider(e, pass, walk[o]))
  {
    DrawnConsider(walk, e, pass, o);
  }

  lemma FirstListedStep(walk: seq<Node>, want: nat, o: nat, e: Draw)
    requires Distinct(walk) && o < |walk| && |e.replicas| < want && FirstInv(walk, want)(o, e) && DrawnInv(walk)(o, e) && Listed(walk, e.replicas)
    ensures Listed(walk, Consider(e, 0, walk[o]).replicas)
  {
    if !Skipped(e, 0, walk[o]) {
      FirstBefore(walk, want, o, e);
      ListedTake(walk, e.replicas, o);
    }
  }

  lemma SecondListedStep(walk: seq<Node>, want: nat, o: nat, e: Draw)
    requires Distinct(walk) && o < |walk| && SecondInv(walk, want)(o, e) && DrawnInv(walk)(o, e) && Listed(walk, e.replicas)
    ensures Listed(walk, Consider(e, 1, walk[o]).replicas)
  {
    if !Skipped(e, 1, walk[o]) {
      SecondBefore(walk, want, o, e);
      ListedTake(walk, e.replicas, o);
    }
  }

  lemma NoneDrawn(walk: seq<Node>, want: nat)
    ensures var none := Draw([], {}, {}); FirstPass(walk, want, 0, none) && Drawn(walk, none) && Listed(walk, none.replicas)
  {
    forall i | 0 <= i < |walk| ensures OpensBelow(walk, want, 0, Draw([], {}, {}), i) {}
  }

  lemma FirstListedEnd(walk: seq<Node>, want: nat, d: Draw)
    requires Distinct(walk) && d == Pass(walk, want, 0, 0, Draw([], {}, {}))
    ensures FirstPass(walk, want, |walk|, d) && Drawn(walk, d) && Listed(walk, d.replicas)
  {
    var stands := FirstInv(walk, want);
    var inv, none := ListedInv(walk, stands), Draw([], {}, {});
    NoneDrawn(walk, want);
    assert stands(0, none) && DrawnInv(walk)(0, none);
    forall o: nat, e: Draw | o < |walk| && |e.replicas| < want && inv(o, e) ensures inv(o + 1, Consider(e, 0, walk[o])) {
      FirstInvStep(walk, want, o, e);
      DrawnInvStep(walk, 0, o, e);
      FirstListedStep(walk, want, o, e);
    }
    var end := PassKeeps(walk, want, 0, 0, none, inv);
    assert inv(end, d) && stands(end, d);
    FirstPassStop(walk, want, end, d);
  }

  lemma SecondListedEnd(walk: seq<Node>, want: nat, d: Draw)
    requires Distinct(walk) && SecondInv(walk, want)(0, d) && DrawnInv(walk)(0, d) && Listed(walk, d.replicas)
    ensures Listed(walk, Pass(walk, want, 1, 0, d).replicas)
  {
    var inv := ListedInv(walk, SecondInv(walk, want));
    forall o: nat, e: Draw | o < |walk| && |e.replicas| < want && inv(o, e) ensures inv(o + 1, Consider(e, 1, walk[o])) {
      SecondInvStep(walk, want, o, e);
      DrawnInvStep(walk, 1, o, e);
      SecondListedStep(walk, want, o, e);
    }
    var end := PassKeeps(walk, want, 1, 0, d, inv);
    assert inv(end, Pass(walk, want, 1, 0, d));
  }

  /** The chosen nodes are listed in that order. */
  lemma PickOrder(walk: seq<Node>, rf: nat)
    requires Distinct(walk)
    ensures Listed(walk, Pick(walk, rf).replicas)
  {
    var want := Min(rf, |walk|);
    var d := Pass(walk, want, 0, 0, Draw([], {}, {}));
    FirstListedEnd(walk, want, d);
    if |d.replicas| < want {
      SpanGrows(walk, 0, |walk|);
      forall i | 0 <= i < |walk| ensures FillsBelow(walk, want, 0, d, i) {
        assert OpensBelow(walk, want, |walk|, d, i);
        SpanGrows(walk, i, |walk|);
      }
      SecondListedEnd(walk, want, d);
    }
  }

  // ----- a node more on the walk

  /** `next` is `walk` with one node more, at position `p`. */
  ghost predicate Inserted(walk: seq<Node>, next: seq<Node>, p: nat) {
    && p <= |walk| && |next| == |walk| + 1
    && (forall i :: 0 <= i < |walk| ==> walk[i] == next[Moved(p, i)])
  }

  function Moved(p: nat, i: nat): nat { if i < p then i else i + 1 }

  lemma {:induction false} InsertedRacks(walk: seq<Node>, next: seq<Node>, p: nat, i: nat)
    requires Inserted(walk, next, p) && i <= |walk|
    ensures i <= p ==> RacksTo(next, i) == RacksTo(walk, i)
    ensures i >= p ==> RacksTo(next, i + 1) == RacksTo(walk, i) + {next[p].rack}
  {
    if i > 0 {
      InsertedRacks(walk, next, p, i - 1);
      assert walk[i - 1] == next[Moved(p, i - 1)];
    }
  }

  lemma InsertedDistinct(walk: seq<Node>, next: seq<Node>, p: nat)
    requires Inserted(walk, next, p) && Distinct(next)
    ensures Distinct(walk)
  {
    forall i, j | 0 <= i < j < |walk| ensures Differ(walk, i, j) {
      assert Differ(next, Moved(p, i), Moved(p, j));
    }
  }

  lemma InsertedSpan(walk: seq<Node>, next: seq<Node>, p: nat, i: nat)
    requires Inserted(walk, next, p) && i < |walk|
    ensures First(next, Moved(p, i)) ==> First(walk, i)
    ensures Span(walk, i) <= Span(next, Moved(p, i)) <= Span(walk, i) + (Moved(p, i) - i)
    ensures Span(walk, |walk|) <= Span(next, |next|)
  {
    InsertedRacks(walk, next, p, i);
    InsertedRacks(walk, next, p, |walk|);
    assert walk[i] == next[Moved(p, i)];
    OneMore(RacksTo(walk, i), next[p].rack);
    OneMore(RacksTo(walk, |walk|), next[p].rack);
  }

  lemma OneMore(racks: set<string>, r: string)
    ensures |racks| <= |racks + {r}| <= |racks| + 1
  {
    if r in racks { assert racks + {r} == racks; }
  }

  lemma ChosenStays(walk: seq<Node>, next: seq<Node>, p: nat, rf: nat, i: nat)
    requires Inserted(walk, next, p) && i < |walk| && Chosen(next, rf, Moved(p, i))
    ensures Chosen(walk, rf, i)
  {
    InsertedSpan(walk, next, p, i);
    SpanGrows(walk, i, |walk|);
    SpanGrows(next, 0, Moved(p, i));
    SpanStep(walk, i);
    SpanGrows(walk, i + 1, |walk|);
  }

  /** A node met on the way takes places only for itself: whoever is chosen with
      it was chosen without it. */
  lemma OnlyNewGains(walk: seq<Node>, next: seq<Node>, p: nat, rf: nat, i: nat)
    requires Inserted(walk, next, p) && Distinct(next) && i < |walk|
    ensures walk[i].id in Pick(next, rf).seen ==> walk[i].id in Pick(walk, rf).seen
  {
    InsertedDistinct(walk, next, p);
    PickIff(walk, rf, i);
    PickIff(next, rf, Moved(p, i));
    assert walk[i] == next[Moved(p, i)];
    if Chosen(next, rf, Moved(p, i)) { ChosenStays(walk, next, p, rf, i); }
  }

  // ----- the loop

  /** The nodes in the order a walk from `start` meets them. */
  ghost function Turned(nodes: seq<Node>, start: nat): seq<Node>
    requires start < |nodes|
  {
    seq(|nodes|, k requires 0 <= k < |nodes| => nodes[(start + k) % |nodes|])
  }

  lemma TurnedZero(nodes: seq<Node>)
    requires |nodes| > 0
    ensures Turned(nodes, 0) == nodes
  {
    forall k | 0 <= k < |nodes| ensures Turned(nodes, 0)[k] == nodes[k] { Wrap(k, |nodes|); }
  }

  lemma TurnedDistinct(nodes: seq<Node>, start: nat)
    requires Distinct(nodes) && start < |nodes|
    ensures Distinct(Turned(nodes, start))
  {
    var n, walk := |nodes|, Turned(nodes, start);
    forall i, j | 0 <= i < j < n ensures Differ(walk, i, j) {
      Wrap(start + i, n);
      Wrap(start + j, n);
      var a, b := (start + i) % n, (start + j) % n;
      if a < b { assert Differ(nodes, a, b); } else { assert Differ(nodes, b, a); }
    }
  }

  /** All racks of a walk, in no order. */
  ghost function AllRacks(walk: seq<Node>): set<string> { set i | 0 <= i < |walk| :: walk[i].rack }

  lemma {:induction false} RacksAre(walk: seq<Node>, j: nat)
    requires j <= |walk|
    ensures RacksTo(walk, j) == set i | 0 <= i < j :: walk[i].rack
  {
    if j > 0 { RacksAre(walk, j - 1); }
  }

  /** Wherever a walk starts, it meets every rack. */
  lemma TurnedRacks(nodes: seq<Node>, start: nat)
    requires start < |nodes|
    ensures RacksTo(Turned(nodes, start), |nodes|) == RacksTo(nodes, |nodes|)
  {
    RacksAre(nodes, |nodes|);
    RacksAre(Turned(nodes, start), |nodes|);
    TurnedMeets(nodes, start);
  }

  lemma TurnedMeets(nodes: seq<Node>, start: nat)
    requires start < |nodes|
    ensures AllRacks(Turned(nodes, start)) == AllRacks(nodes)
  {
    var n, walk := |nodes|, Turned(nodes, start);
    forall i | 0 <= i < n ensures nodes[i].rack in AllRacks(walk) {
      var k := if i >= start then i - start else i + n - start;
      Wrap(start + k, n);
      assert walk[k] == nodes[i];
    }
  }

  lemma TurnedCovered(nodes: seq<Node>, start: nat, ids: set<Id>)
    requires start < |nodes|
    ensures Covered(Turned(nodes, start), ids) == Covered(nodes, ids)
  {
    var n, walk := |nodes|, Turned(nodes, start);
    forall i | 0 <= i < n && nodes[i].id in ids ensures nodes[i].rack in Covered(walk, ids) {
      var k := if i >= start then i - start else i + n - start;
      Wrap(start + k, n);
      assert walk[k] == nodes[i];
    }
  }

  method PickReplicas(nodes: seq<Node>, start: nat, rf: nat) returns (replicas: seq<Id>)
    requires start < |nodes|
    ensures replicas == Pick(Turned(nodes, start), rf).replicas
  {
    var n := |nodes|;
    var want := if rf > n then n else rf;
    ghost var walk := Turned(nodes, start);
    replicas := [];
    var seen: set<Id>, usedRacks: set<string> := {}, {};
    var pass := 0;
    while pass < 2 && |replicas| < want
      invariant pass <= 2
      invariant Pick(walk, rf) ==
        (if pass == 0 then Pass(walk, want, 1, 0, Pass(walk, want, 0, 0, Draw(replicas, seen, usedRacks)))
         else if pass == 1 then Pass(walk, want, 1, 0, Draw(replicas, seen, usedRacks))
         else Draw(replicas, seen, usedRacks))
    {
      ghost var before := Draw(replicas, seen, usedRacks);
      var off := 0;
      while off < n && |replicas| < want
        invariant off <= n && Pass(walk, want, pass, 0, before) == Pass(walk, want, pass, off, Draw(replicas, seen, usedRacks))
      {
        var cand := nodes[(start + off) % n];
        assert cand == walk[off];
        if !(cand.id in seen) && !(pass == 0 && |replicas| > 0 && cand.rack in usedRacks) {
          replicas := replicas + [cand.id];
          seen := seen + {cand.id};
          usedRacks := usedRacks + {cand.rack};
        }
        off := off + 1;
      }
      pass := pass + 1;
    }
  }
}
