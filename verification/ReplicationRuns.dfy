/** Runs of the engine in which it loses track of a write. */
module ReplicationRuns {
  import opened Basics
  import opened Replication

  /** At a start replicas are registered one after the other, and each registration
      rewrites the state file with the replicas registered so far.  A second crash
      before the last of them leaves the rest out of the file: replica "b" is then
      taken to hold everything, and a write it misses is not tracked. */
  method CrashWhileRegistering() returns (e: Engine)
    ensures fresh(e) && e.Valid() && "b" in e.replicas && e.replicas["b"].state == InSync
    ensures ("b", Op(1, 10)) in e.book.owed && !Settled(e.book, "b", Op(1, 10))
    ensures !Tracked(e.pending, e.replicas["b"], e.book, "b", Op(1, 10))
  {
    e := Owing(Op(1, 10));
    RestartFirst(e, "a");
    e.Restart(false);
    e.AddReplica("a");
    e.AddReplica("b");
  }

  /** Two replicas, recorded, and a write neither has. */
  method Owing(op: Op) returns (e: Engine)
    requires op.ts == 10
    ensures fresh(e) && e.Valid() && e.persisted.Keys == {"a", "b"} && e.book.lost == {} && e.book.reborn == map[]
    ensures ("b", op) in e.book.owed && e.book.covered == {} && e.book.gaps == e.book.past == {}
  {
    e := Recorded();
    WriteOne(e, op);
  }

  method Recorded() returns (e: Engine)
    ensures fresh(e) && e.Valid() && e.persisted.Keys == {"a", "b"} && e.book.lost == {} && e.book.reborn == map[]
    ensures e.book.members == {"a", "b"} && e.book.registered == {} && e.book.clock == 5 && e.book.covered == {} && e.book.gaps == e.book.past == {}
  {
    e := new Engine(100);
    AddNew(e, "a");
    AddNew(e, "b");
    Record(e, 5);
  }

  /** The watermarks are taken and written. */
  method Record(e: Engine, now: nat)
    requires e.Valid()
    modifies e
    ensures e.Valid() && e.replicas == old(e.replicas) && e.pending == old(e.pending) && e.loaded == old(e.loaded)
    ensures e.persisted.Keys == e.replicas.Keys && e.book == old(e.book).(clock := Max(old(e.book.clock), now))
    ensures e.maxRetained == old(e.maxRetained) && e.stateCorrupt == old(e.stateCorrupt)
    ensures forall id :: id in e.replicas ==> IsMark(e.pending, e.replicas[id], id, now, e.persisted[id])
  {
    var s := e.Watermarks(now);
    e.Persist(s, true);
  }

  method WriteOne(e: Engine, op: Op)
    requires e.Valid() && op.ts > 0 && e.book.registered == {} && e.book.clock <= op.ts + CATCH_UP_SKEW
    modifies e
    ensures e.Valid() && e.persisted == old(e.persisted) && e.book == Registered(old(e.book), op)
  {
    e.OnLocalWrite(op, false);
  }

  /** A replica nobody knew. */
  method AddNew(e: Engine, id: Id)
    requires e.Valid() && id !in e.book.members && id !in e.book.lost && e.loaded == map[] && !e.stateCorrupt
    modifies e
    ensures e.Valid() && id in e.replicas && e.replicas == old(e.replicas)[id := Replica(InSync, false, 0, 0, false, false)]
    ensures e.book == old(e.book).(members := old(e.book.members) + {id}, added := old(e.book.added)[id := e.markGen])
    ensures e.pending == old(e.pending) && e.loaded == map[] && !e.stateCorrupt && e.persisted == old(e.persisted)
    ensures e.lastPersistedGen == old(e.lastPersistedGen) && e.maxRetained == old(e.maxRetained) && e.markGen == old(e.markGen)
  {
    assert id !in e.replicas;
    ghost var b := e.book;
    assert AllHeld(e.pending, b, id);
    e.AddReplica(id);
    assert e.book.lost == b.lost;
  }

  /** A restart that gets as far as registering one replica. */
  method RestartFirst(e: Engine, first: Id)
    requires e.Valid() && first in e.persisted && e.book.reborn == map[] && e.book.lost == {}
    modifies e
    ensures e.Valid() && e.persisted.Keys == {first} && e.book.reborn == map[] && e.book.lost == {}
    ensures e.book.owed == old(e.book.owed) && e.book.covered == old(e.book.covered)
    ensures e.book.gaps == {} && e.book.past == old(e.book.past) + old(e.book.gaps)
  {
    e.Restart(false);
    e.AddReplica(first);
    Record(e, 6);
  }

  /** A new member is registered in one section and marked as empty in another.  If the
      watermarks are recorded in between, the file says that the member holds everything
      written so far; a crash before they are recorded again makes that the start of its
      catch-up, and an older write is not tracked. */
  method CrashWhileJoining(a: Id, m: Id) returns (e: Engine)
    requires a != m
    ensures fresh(e) && e.Valid() && m in e.loaded && m in e.replicas && e.replicas[m].needsResync
    ensures (m, Op(1, 10)) in e.book.owed && !Settled(e.book, m, Op(1, 10))
    ensures !Tracked(e.pending, e.replicas[m], e.book, m, Op(1, 10))
  {
    e := Delivering(a);
    AddNew(e, m);
    Record(e, CATCH_UP_SKEW + 20);
    e.MarkFresh(m);
    JoinAgain(e, m);
  }

  /** One replica and a write it has. */
  method Delivering(a: Id) returns (e: Engine)
    ensures fresh(e) && e.Valid() && e.book.members == {a} && e.pending == map[] && e.loaded == map[] && !e.stateCorrupt
    ensures e.book.registered == {Op(1, 10)} && Clean(e.book)
  {
    e := Starting(a);
    WriteTen(e);
    Deliver(e, a);
  }

  ghost predicate Clean(b: Book) { b.lost == {} && b.gaps == b.past == {} && b.clock == 0 }

  method Starting(a: Id) returns (e: Engine)
    ensures fresh(e) && e.Valid() && e.book.members == {a} && e.pending == map[] && e.loaded == map[] && !e.stateCorrupt
    ensures e.replicas.Keys == {a} && e.maxRetained == 100 && e.book.registered == {} && Clean(e.book)
  {
    e := new Engine(100);
    AddNew(e, a);
  }

  method WriteTen(e: Engine)
    requires e.Valid() && e.pending == map[] && e.maxRetained == 100 && e.book.registered == {} && Clean(e.book)
    modifies e
    ensures e.Valid() && e.pending == map[1 := PendingOp(Op(1, 10), {})] && e.replicas == old(e.replicas) && e.loaded == old(e.loaded)
    ensures e.book == Registered(old(e.book), Op(1, 10)) && e.stateCorrupt == old(e.stateCorrupt)
  {
    WriteKept(e, Op(1, 10), false);
  }

  lemma AllAcked(a: Id, op: Op)
    ensures AckMany(map[op.seqNum := PendingOp(op, {})], {a}, a, [op], 1) == map[]
  {
    var p: Buffer := map[op.seqNum := PendingOp(op, {})];
    assert AckMany(p, {a}, a, [op], 0) == p;
  }

  method Deliver(e: Engine, a: Id)
    requires e.Valid() && e.replicas.Keys == {a} && e.pending == map[1 := PendingOp(Op(1, 10), {})]
    modifies e
    ensures e.Valid() && e.replicas.Keys == {a} && e.pending == map[] && e.book == Covered(old(e.book), a, {Op(1, 10)})
    ensures e.loaded == old(e.loaded) && e.stateCorrupt == old(e.stateCorrupt)
  {
    AllAcked(a, Op(1, 10));
    assert (set op | op in [Op(1, 10)]) == {Op(1, 10)};
    e.SendToReplica(a, [Op(1, 10)], true);
  }

  method JoinAgain(e: Engine, m: Id)
    requires e.Valid() && m in e.persisted && e.persisted[m] == CATCH_UP_SKEW + 20
    requires (m, Op(1, 10)) in e.book.owed && !Settled(e.book, m, Op(1, 10))
    modifies e
    ensures e.Valid() && m in e.loaded && m in e.replicas && e.replicas[m].needsResync
    ensures (m, Op(1, 10)) in e.book.owed && !Settled(e.book, m, Op(1, 10))
    ensures !Tracked(e.pending, e.replicas[m], e.book, m, Op(1, 10))
  {
    e.Restart(false);
    e.AddReplica(m);
  }

  const LATE: nat := CATCH_UP_SKEW + 2

  /** Writes, sequence numbers and times in order.  A full queue keeps the first from
      being sent, so anti-entropy re-sends it together with the second; meanwhile the
      second is delivered by itself, and the re-send fails: the flag is set from the
      second, which is no longer retained.  Recovery reads the flag; the first is
      evicted, which lowers it; recovery clears it and catches up from what it read.
      The first write is then neither on the replica nor known to be missing. */
  method EvictedWhileRecovering() returns (e: Engine)
    ensures fresh(e) && e.Valid() && "r" in e.replicas && e.replicas["r"].catchingUpFrom == LATE
    ensures ("r", Op(1, 1)) in e.book.owed && !Settled(e.book, "r", Op(1, 1))
    ensures !Tracked(e.pending, e.replicas["r"], e.book, "r", Op(1, 1))
  {
    var since;
    e, since := Recovering();
    EvictFirst(e);
    CatchUpFrom(e, since);
  }

  ghost predicate Missing(book: Book) {
    ("r", Op(1, 1)) in book.owed && !Settled(book, "r", Op(1, 1))
  }

  method Recovering() returns (e: Engine, since: nat)
    ensures fresh(e) && e.Valid() && e.maxRetained == 2 && since == LATE
    ensures e.replicas.Keys == {"r"} && e.replicas["r"] == Replica(SyncPending, true, LATE, 0, false, false)
    ensures e.pending == One() && e.book.clock == 0 && e.book.registered == {Op(1, 1), Op(2, LATE)} && Missing(e.book)
  {
    e := Behind();
    DeliverSecond(e);
    since := ResendFails(e);
  }

  method CatchUpFrom(e: Engine, since: nat)
    requires e.Valid() && "r" in e.replicas && e.replicas["r"] == Replica(SyncPending, true, 1, 0, false, false) && since == LATE
    requires Missing(e.book) && !Retained(e.pending, "r", Op(1, 1))
    modifies e
    ensures e.Valid() && "r" in e.replicas && e.replicas["r"].catchingUpFrom == LATE
    ensures ("r", Op(1, 1)) in e.book.owed && !Settled(e.book, "r", Op(1, 1))
    ensures !Tracked(e.pending, e.replicas["r"], e.book, "r", Op(1, 1))
  {
    e.CatchUpBegin("r", since, false);
  }

  /** A write while the buffer has room. */
  method WriteKept(e: Engine, op: Op, queueFull: bool)
    requires e.Valid() && op.ts > 0 && (forall o :: o in e.book.registered ==> o.seqNum != op.seqNum)
    requires e.book.clock <= op.ts + CATCH_UP_SKEW && |e.pending| < e.maxRetained
    modifies e
    ensures e.Valid() && e.pending == old(e.pending)[op.seqNum := PendingOp(op, {})] && e.book == Registered(old(e.book), op)
    ensures e.replicas == (if queueFull then Lagged(old(e.replicas)) else old(e.replicas)) && e.maxRetained == old(e.maxRetained)
    ensures e.loaded == old(e.loaded) && e.stateCorrupt == old(e.stateCorrupt)
  {
    assert |e.pending[op.seqNum := PendingOp(op, {})]| <= |e.pending| + 1;
    e.OnLocalWrite(op, queueFull);
  }

  ghost function Two(): Buffer { map[1 := PendingOp(Op(1, 1), {}), 2 := PendingOp(Op(2, LATE), {})] }

  ghost function One(): Buffer { map[1 := PendingOp(Op(1, 1), {})] }

  method First() returns (e: Engine)
    ensures fresh(e) && e.Valid() && e.maxRetained == 2 && e.replicas.Keys == {"r"} && e.replicas["r"] == Replica(Lagging, false, 0, 0, false, false)
    ensures e.pending == One() && e.book.registered == {Op(1, 1)}
    ensures e.book.owed == {("r", Op(1, 1))} && e.book.covered == {} && e.book.gaps == e.book.past == {} && e.book.clock == 0
  {
    e := new Engine(2);
    AddNew(e, "r");
    WriteFirst(e);
  }

  method WriteFirst(e: Engine)
    requires e.Valid() && e.maxRetained == 2 && e.replicas == map["r" := Replica(InSync, false, 0, 0, false, false)]
    requires e.pending == map[] && e.book.members == {"r"} && e.book.registered == {} && e.book.owed == {} && e.book.clock == 0
    modifies e
    ensures e.Valid() && e.maxRetained == 2 && e.replicas.Keys == {"r"} && e.replicas["r"] == Replica(Lagging, false, 0, 0, false, false)
    ensures e.pending == One() && e.book == old(e.book).(registered := {Op(1, 1)}, owed := {("r", Op(1, 1))})
  {
    OwedToOne(e.book, Op(1, 1));
    WriteKept(e, Op(1, 1), true);
  }

  lemma OwedToOne(b: Book, op: Op)
    requires b.members == {"r"} && b.registered == {} && b.owed == {}
    ensures Registered(b, op) == b.(registered := {op}, owed := {("r", op)})
  {
    assert Registered(b, op).owed == {("r", op)};
  }

  method Behind() returns (e: Engine)
    ensures fresh(e) && e.Valid() && e.maxRetained == 2 && e.replicas.Keys == {"r"} && e.replicas["r"] == Replica(Lagging, false, 0, 0, false, false)
    ensures e.pending == Two() && e.book.registered == {Op(1, 1), Op(2, LATE)}
    ensures ("r", Op(1, 1)) in e.book.owed && e.book.covered == {} && e.book.gaps == e.book.past == {} && e.book.clock == 0
  {
    e := First();
    assert |e.pending| == 1;
    WriteKept(e, Op(2, LATE), false);
  }

  lemma SecondAcked()
    ensures AckMany(Two(), {"r"}, "r", [Op(2, LATE)], 1) == One()
  {
    assert AckMany(Two(), {"r"}, "r", [Op(2, LATE)], 0) == Two();
    assert {"r"} <= {} + {"r"} && Two() - {2} == One();
  }

  lemma SecondFlagged(r: Replica)
    requires !r.needsResync
    ensures FlagMany(One(), r, [Op(1, 1), Op(2, LATE)], 2) == FlagResync(r, LATE)
  {
    var ops := [Op(1, 1), Op(2, LATE)];
    assert FlagMany(One(), r, ops, 0) == r && FlagMany(One(), r, ops, 1) == r;
  }

  method DeliverSecond(e: Engine)
    requires e.Valid() && e.replicas.Keys == {"r"} && e.replicas["r"] == Replica(Lagging, false, 0, 0, false, false) && e.pending == Two()
    modifies e
    ensures e.Valid() && e.replicas.Keys == {"r"} && e.replicas["r"] == Replica(InSync, false, 0, 0, false, false)
    ensures e.pending == One() && e.maxRetained == old(e.maxRetained) && e.book == Covered(old(e.book), "r", {Op(2, LATE)})
  {
    SecondAcked();
    assert (set op | op in [Op(2, LATE)]) == {Op(2, LATE)};
    e.SendToReplica("r", [Op(2, LATE)], true);
  }

  method ResendFails(e: Engine) returns (since: nat)
    requires e.Valid() && e.replicas.Keys == {"r"} && e.replicas["r"] == Replica(InSync, false, 0, 0, false, false) && e.pending == One()
    modifies e
    ensures e.Valid() && e.replicas.Keys == {"r"} && e.replicas["r"] == Replica(SyncPending, true, LATE, 0, false, false) && since == LATE
    ensures e.pending == One() && e.maxRetained == old(e.maxRetained) && e.book == old(e.book)
  {
    SecondFlagged(e.replicas["r"].(state := Failed));
    e.SendToReplica("r", [Op(1, 1), Op(2, LATE)], false);
    var need;
    need, since := e.RecoverBegin("r");
  }

  ghost function Three(): Buffer { One()[3 := PendingOp(Op(3, LATE), {})][4 := PendingOp(Op(4, LATE), {})] }

  method EvictFirst(e: Engine)
    requires e.Valid() && e.replicas.Keys == {"r"} && e.replicas["r"] == Replica(SyncPending, true, LATE, 0, false, false) && e.maxRetained == 2
    requires e.pending == One() && e.book.clock == 0 && e.book.registered == {Op(1, 1), Op(2, LATE)} && Missing(e.book)
    modifies e
    ensures e.Valid() && e.replicas.Keys == {"r"} && e.replicas["r"] == Replica(SyncPending, true, 1, 0, false, false)
    ensures Missing(e.book) && !Retained(e.pending, "r", Op(1, 1))
  {
    assert |e.pending| == 1;
    WriteKept(e, Op(3, LATE), false);
    LastWrite(e);
  }

  method LastWrite(e: Engine)
    requires e.Valid() && e.replicas.Keys == {"r"} && e.replicas["r"] == Replica(SyncPending, true, LATE, 0, false, false) && e.maxRetained == 2
    requires e.pending == One()[3 := PendingOp(Op(3, LATE), {})] && e.book.clock == 0
    requires e.book.registered == {Op(1, 1), Op(2, LATE), Op(3, LATE)} && Missing(e.book)
    modifies e
    ensures e.Valid() && e.replicas.Keys == {"r"} && e.replicas["r"] == Replica(SyncPending, true, 1, 0, false, false)
    ensures Missing(e.book) && !Retained(e.pending, "r", Op(1, 1))
  {
    FirstEvicted(e.replicas);
    e.OnLocalWrite(Op(4, LATE), false);
  }

  lemma FirstEvicted(replicas: map<Id, Replica>)
    ensures Bounded(Three(), replicas, 2) == (Three() - {1}, Flagged(replicas, PendingOp(Op(1, 1), {})))
  {
    var p := Three();
    assert p.Keys == {1, 3, 4} && |p| == |p.Keys| == 3;
    var m := OldestOf(p);
    assert 1 in p && m <= 1 && m in p.Keys;
    assert p[1] == PendingOp(Op(1, 1), {}) && WithoutOldest(p) == p - {1};
    assert Dropped(p, replicas, 1) == Dropped(p - {1}, Flagged(replicas, p[1]), 0);
  }

  /** A catch-up from before the tombstones kept may miss deletes, and the engine says so for
      as long as the process lives.  After a restart nothing says so any more. */
  method GapForgotten(r: Id) returns (e: Engine)
    ensures fresh(e) && e.Valid() && r in e.replicas && !e.replicas[r].deleteGap
    ensures (r, Op(1, 10)) in e.book.owed && (r, Op(1, 10)) !in e.book.covered && (r, Op(1, 10)) in e.book.past
  {
    e := Unsent(r);
    Gap(e, r);
    e.Restart(false);
    e.AddReplica(r);
  }

  /** One replica, recorded, and a write it does not have. */
  method Unsent(r: Id) returns (e: Engine)
    ensures fresh(e) && e.Valid() && r in e.persisted && (r, Op(1, 10)) in e.book.owed && (r, Op(1, 10)) !in e.book.covered
    ensures Op(1, 10) in e.book.registered
  {
    e := new Engine(100);
    AddNew(e, r);
    Record(e, 5);
    WriteOne(e, Op(1, 10));
  }

  /** It is registered again after a restart and caught up from too far back. */
  method Gap(e: Engine, r: Id)
    requires e.Valid() && r in e.persisted && (r, Op(1, 10)) in e.book.owed && (r, Op(1, 10)) !in e.book.covered
    requires Op(1, 10) in e.book.registered
    modifies e
    ensures e.Valid() && r in e.replicas && e.replicas[r].deleteGap && r in e.persisted
    ensures (r, Op(1, 10)) in e.book.owed && (r, Op(1, 10)) !in e.book.covered && (r, Op(1, 10)) in e.book.gaps
  {
    e.Restart(false);
    e.AddReplica(r);
    var _, since := e.RecoverBegin(r);
    e.CatchUpBegin(r, since, true);
  }
}
