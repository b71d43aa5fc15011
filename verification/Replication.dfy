/** Replicated mode: the retention buffer, per-op acks, eviction, recovery, durable
    watermarks and restart — no registered write is ever forgotten for a replica.

    Every method is one section the code runs under its lock; concurrency is any
    order of calls. */
module Replication {
  import opened Basics

  datatype Op = Op(seqNum: nat, ts: nat)

  /** A retained write and the replicas that acked it. */
  datatype PendingOp = PendingOp(op: Op, acked: set<Id>)

  type Buffer = map<nat, PendingOp>

  datatype ReplicaState = InSync | SyncPending | Lagging | Failed

  /** `catchingUpFrom` is 0 unless a catch-up is running. */
  datatype Replica = Replica(
    state: ReplicaState,
    needsResync: bool,
    resyncFrom: nat,
    catchingUpFrom: nat,
    deleteGap: bool,
    freshMember: bool)

  /** Acknowledgement watermarks, with the generation that orders them. */
  datatype Snapshot = Snapshot(marks: map<Id, nat>, gen: nat)

  /** A catch-up reads this much before its start, in nanoseconds. */
  const CATCH_UP_SKEW: nat := 10_000_000_000

  /** History: all registered writes; the replicas, known to this process or not, that
      were added and not removed; which writes each is owed (registered since it was
      added), holds, and gets from a running catch-up; the generation at which it was
      added to this process, and up to which recorded marks are not about the replica as
      it is; which writes a catch-up could not be sure to bring, started from before the
      tombstones kept, of this process and registration, and of earlier ones; which
      replicas the engine has lost track of; and the latest time a watermark was taken at. */
  datatype Book = Book(
    registered: set<Op>,
    members: set<Id>,
    owed: set<(Id, Op)>,
    covered: set<(Id, Op)>,
    due: set<(Id, Op)>,
    added: map<Id, nat>,
    reborn: map<Id, nat>,
    gaps: set<(Id, Op)>,
    past: set<(Id, Op)>,
    lost: set<Id>,
    clock: nat)

  // ----- the invariant

  ghost predicate Retained(pending: Buffer, id: Id, op: Op) {
    op.seqNum in pending && pending[op.seqNum].op == op && id !in pending[op.seqNum].acked
  }

  predicate InBuffer(pending: Buffer, op: Op) {
    op.seqNum in pending && pending[op.seqNum].op == op
  }

  /** Replica `id` has the write, or misses what no catch-up can bring. */
  ghost predicate Settled(b: Book, id: Id, op: Op) { (id, op) in b.covered || (id, op) in b.gaps || (id, op) in b.past }

  /** Write `op` is on replica `id`, or the engine still knows that it is not. */
  ghost predicate Tracked(pending: Buffer, r: Replica, b: Book, id: Id, op: Op) {
    || Settled(b, id, op)
    || Retained(pending, id, op)
    || (r.needsResync && r.resyncFrom <= op.ts + CATCH_UP_SKEW)
    || (r.catchingUpFrom != 0 && (id, op) in b.due && r.catchingUpFrom <= op.ts + CATCH_UP_SKEW)
  }

  ghost predicate TrackedFor(pending: Buffer, r: Replica, b: Book, id: Id) {
    forall op :: (id, op) in b.owed ==> Tracked(pending, r, b, id, op)
  }

  ghost predicate TrackedAll(pending: Buffer, replicas: map<Id, Replica>, b: Book) {
    forall id {:trigger TrackedFor(pending, replicas[id], b, id)} ::
      id in replicas && id !in b.lost ==> TrackedFor(pending, replicas[id], b, id)
  }

  ghost predicate ReplicasOk(replicas: map<Id, Replica>) {
    forall id :: id in replicas && replicas[id].needsResync ==> replicas[id].resyncFrom > 0
  }

  ghost predicate BufferOk(pending: Buffer, b: Book) {
    && (forall op :: op in b.registered ==> op.ts > 0)
    && (forall n :: n in pending ==> pending[n].op.seqNum == n && pending[n].op in b.registered)
    && (forall x, y {:trigger SameOp(x, y)} :: x in b.registered && y in b.registered ==> SameOp(x, y))
  }

  /** Sequence numbers are never used twice. */
  ghost predicate SameOp(x: Op, y: Op) { x.seqNum == y.seqNum ==> x == y }

  ghost predicate BookOk(replicas: map<Id, Replica>, b: Book) {
    && (forall id, op :: (id, op) in b.owed ==> op in b.registered && id in b.members)
    && replicas.Keys <= b.members
    && (forall id, op :: (id, op) in b.gaps ==> id in replicas && replicas[id].deleteGap)
  }

  /** Every write older than the mark, less the skew, is on the replica. */
  ghost predicate MarkOk(b: Book, id: Id, mark: nat) {
    forall op :: (id, op) in b.owed ==> Settled(b, id, op) || mark <= op.ts + CATCH_UP_SKEW
  }

  /** A mark of this generation is about the replica as it is now. */
  ghost predicate Speaks(b: Book, id: Id, gen: nat) { id !in b.lost && (id in b.reborn ==> b.reborn[id] < gen) }

  /** A snapshot claims nothing false, however old, and leaves out no replica that
      was registered when it was taken. */
  ghost predicate SnapshotOk(ids: set<Id>, b: Book, s: Snapshot) {
    && (forall id {:trigger MarkOk(b, id, s.marks[id])} :: id in s.marks && Speaks(b, id, s.gen) ==> MarkOk(b, id, s.marks[id]))
    && (forall id :: id in s.marks ==> s.marks[id] <= b.clock)
    && (forall id :: id in ids && id in b.added && b.added[id] < s.gen ==> id in s.marks)
  }

  /** So do the marks loaded at the start, for replicas not yet registered again. */
  ghost predicate LoadedOk(ids: set<Id>, b: Book, loaded: map<Id, nat>) {
    && (forall id {:trigger MarkOk(b, id, loaded[id])} :: id in loaded && id !in ids && id !in b.lost ==> MarkOk(b, id, loaded[id]))
    && (forall id :: id in loaded ==> loaded[id] <= b.clock)
  }

  /** Buffer, flags and history agree. */
  ghost predicate Ok(pending: Buffer, replicas: map<Id, Replica>, b: Book) {
    TrackedAll(pending, replicas, b) && BufferOk(pending, b) && BookOk(replicas, b) && ReplicasOk(replicas)
  }

  /** The state file and what was loaded from it at the start. */
  ghost predicate FileOk(ids: set<Id>, b: Book, s: Snapshot, loaded: map<Id, nat>, markGen: nat) {
    && SnapshotOk(ids, b, s) && s.gen <= markGen && LoadedOk(ids, b, loaded)
    && (forall id :: id in ids ==> id in b.added && b.added[id] <= markGen)
    && (forall id :: id in b.reborn ==> b.reborn[id] <= markGen)
  }

  // ----- steps on values

  /** The replica missed a write of time `ts` that is no longer retained. */
  function FlagResync(r: Replica, ts: nat): Replica {
    r.(needsResync := true, resyncFrom := if !r.needsResync || ts < r.resyncFrom then ts else r.resyncFrom)
  }

  ghost function Registered(b: Book, op: Op): Book {
    b.(registered := b.registered + {op}, owed := b.owed + set id | id in b.members :: (id, op))
  }

  ghost function Covered(b: Book, id: Id, ops: set<Op>): Book {
    b.(covered := b.covered + set op | op in ops :: (id, op))
  }

  /** More covered, later clock: nothing tracked is lost. */
  ghost predicate Grows(b: Book, b': Book) {
    && b'.registered == b.registered && b'.owed == b.owed && b'.added == b.added && b'.due == b.due
    && b'.members == b.members && b'.reborn == b.reborn
    && b.covered <= b'.covered && b.gaps == b'.gaps && b.past == b'.past && b.lost <= b'.lost && b.clock <= b'.clock
  }

  /** The same is owed, and no claim became false. */
  ghost predicate Firms(b: Book, b': Book) {
    && b'.owed == b.owed && b'.added == b.added && b'.reborn == b.reborn
    && b.covered <= b'.covered && b.gaps <= b'.gaps && b.past <= b'.past && b.lost <= b'.lost && b.clock <= b'.clock
  }

  lemma FileGrows(ids: set<Id>, b: Book, b': Book, s: Snapshot, loaded: map<Id, nat>, markGen: nat)
    requires FileOk(ids, b, s, loaded, markGen) && Firms(b, b')
    ensures FileOk(ids, b', s, loaded, markGen)
  {
    SnapshotGrows(ids, b, b', s);
    forall id | id in loaded && id !in ids && id !in b'.lost ensures MarkOk(b', id, loaded[id]) { assert MarkOk(b, id, loaded[id]); }
  }

  lemma SnapshotGrows(ids: set<Id>, b: Book, b': Book, s: Snapshot)
    requires SnapshotOk(ids, b, s) && Firms(b, b')
    ensures SnapshotOk(ids, b', s)
  {
    forall id | id in s.marks && Speaks(b', id, s.gen) ensures MarkOk(b', id, s.marks[id]) { assert MarkOk(b, id, s.marks[id]); }
  }

  lemma FileRegisters(ids: set<Id>, b: Book, op: Op, s: Snapshot, loaded: map<Id, nat>, markGen: nat)
    requires FileOk(ids, b, s, loaded, markGen) && b.clock <= op.ts + CATCH_UP_SKEW
    ensures FileOk(ids, Registered(b, op), s, loaded, markGen)
  {
    var b' := Registered(b, op);
    SnapshotRegisters(ids, b, op, s);
    forall id | id in loaded && id !in ids && id !in b'.lost ensures MarkOk(b', id, loaded[id]) { assert MarkOk(b, id, loaded[id]); }
  }

  lemma SnapshotRegisters(ids: set<Id>, b: Book, op: Op, s: Snapshot)
    requires SnapshotOk(ids, b, s) && b.clock <= op.ts + CATCH_UP_SKEW
    ensures SnapshotOk(ids, Registered(b, op), s)
  {
    var b' := Registered(b, op);
    forall id | id in s.marks && Speaks(b', id, s.gen) ensures MarkOk(b', id, s.marks[id]) { assert MarkOk(b, id, s.marks[id]); }
  }

  lemma RegisterKeeps(pending: Buffer, replicas: map<Id, Replica>, b: Book, op: Op)
    requires Ok(pending, replicas, b) && op.ts > 0 && (forall o :: o in b.registered ==> o.seqNum != op.seqNum)
    ensures Ok(pending[op.seqNum := PendingOp(op, {})], replicas, Registered(b, op))
  {
    var pending', b' := pending[op.seqNum := PendingOp(op, {})], Registered(b, op);
    forall id | id in replicas && id !in b'.lost ensures TrackedFor(pending', replicas[id], b', id) {
      assert TrackedFor(pending, replicas[id], b, id);
      forall o | (id, o) in b'.owed ensures Tracked(pending', replicas[id], b', id, o) {
        if (id, o) in b.owed { assert Tracked(pending, replicas[id], b, id, o); } else { assert Retained(pending', id, op); }
      }
    }
  }

  function Flagged(replicas: map<Id, Replica>, p: PendingOp): map<Id, Replica> {
    map id | id in replicas :: if id in p.acked then replicas[id] else FlagResync(replicas[id], p.op.ts)
  }

  /** Dropping a retained write flags every replica that had not acked it. */
  lemma DropKeeps(pending: Buffer, replicas: map<Id, Replica>, b: Book, n: nat)
    requires Ok(pending, replicas, b) && n in pending
    ensures Ok(pending - {n}, Flagged(replicas, pending[n]), b)
  {
    var p, pending', replicas' := pending[n], pending - {n}, Flagged(replicas, pending[n]);
    forall id | id in replicas' && id !in b.lost ensures TrackedFor(pending', replicas'[id], b, id) {
      assert TrackedFor(pending, replicas[id], b, id);
      forall o | (id, o) in b.owed ensures Tracked(pending', replicas'[id], b, id, o) {
        assert Tracked(pending, replicas[id], b, id, o);
        if o != p.op && Retained(pending, id, o) { assert Retained(pending', id, o); }
      }
    }
  }

  /** One ack: the write leaves the buffer once every registered replica acked it. */
  function AckOne(pending: Buffer, ids: set<Id>, id: Id, op: Op): Buffer {
    if op.seqNum in pending && pending[op.seqNum].op == op then
      var acked := pending[op.seqNum].acked + {id};
      if ids <= acked then pending - {op.seqNum} else pending[op.seqNum := PendingOp(op, acked)]
    else pending
  }

  function AckMany(pending: Buffer, ids: set<Id>, id: Id, ops: seq<Op>, n: nat): Buffer
    requires n <= |ops|
  {
    if n == 0 then pending else AckOne(AckMany(pending, ids, id, ops, n - 1), ids, id, ops[n - 1])
  }

  /** Flag what of a failed batch is no longer retained. */
  function FlagMany(pending: Buffer, r: Replica, ops: seq<Op>, n: nat): Replica
    requires n <= |ops|
  {
    if n == 0 then r
    else
      var q := FlagMany(pending, r, ops, n - 1);
      if InBuffer(pending, ops[n - 1]) then q else FlagResync(q, ops[n - 1].ts)
  }

  /** Flagging for writes of the given times: the flag is set exactly if there is one, from
      the earliest of them and of where it was set before; nothing else changes. */
  ghost predicate FlaggedFor(r: Replica, r': Replica, times: set<nat>) {
    if times == {} then r' == r
    else
      && r' == r.(needsResync := true, resyncFrom := r'.resyncFrom)
      && IsLeast(times + (if r.needsResync then {r.resyncFrom} else {}), r'.resyncFrom)
  }

  lemma FlaggedMore(r: Replica, q: Replica, times: set<nat>, ts: nat)
    requires FlaggedFor(r, q, times)
    ensures FlaggedFor(r, FlagResync(q, ts), times + {ts})
  {
    var all := times + (if r.needsResync then {r.resyncFrom} else {});
    assert times + {ts} + (if r.needsResync then {r.resyncFrom} else {}) == all + {ts};
  }

  /** A failed batch flags the replica for exactly what of it is no longer retained. */
  lemma {:induction false} FlagManyMeans(pending: Buffer, r: Replica, ops: seq<Op>, n: nat)
    requires n <= |ops|
    ensures FlaggedFor(r, FlagMany(pending, r, ops, n), set j | 0 <= j < n && !InBuffer(pending, ops[j]) :: ops[j].ts)
  {
    if n > 0 {
      FlagManyMeans(pending, r, ops, n - 1);
      var before := set j | 0 <= j < n - 1 && !InBuffer(pending, ops[j]) :: ops[j].ts;
      var times := set j | 0 <= j < n && !InBuffer(pending, ops[j]) :: ops[j].ts;
      if InBuffer(pending, ops[n - 1]) {
        assert times == before;
      } else {
        FlaggedMore(r, FlagMany(pending, r, ops, n - 1), before, ops[n - 1].ts);
        assert times == before + {ops[n - 1].ts};
      }
    }
  }

  /** Acks of `ops` by `id`: each of them it names is marked, and leaves the buffer exactly if
      every registered replica has acked it now. */
  lemma {:induction false} AckManyMeans(pending: Buffer, ids: set<Id>, id: Id, ops: seq<Op>, n: nat, m: nat)
    requires n <= |ops| && (forall k :: k in pending ==> pending[k].op.seqNum == k)
    ensures var after := AckMany(pending, ids, id, ops, n);
      && (m in after <==> m in pending && !(pending[m].op in ops[..n] && ids <= pending[m].acked + {id}))
      && (m in after ==> after[m].op == pending[m].op && after[m].acked == pending[m].acked + if pending[m].op in ops[..n] then {id} else {})
  {
    if n > 0 {
      AckManyMeans(pending, ids, id, ops, n - 1, m);
      assert ops[..n] == ops[..n - 1] + [ops[n - 1]];
      var before := AckMany(pending, ids, id, ops, n - 1);
      if m in before && m == ops[n - 1].seqNum && before[m].op == ops[n - 1] {
        assert before[m].acked + {id} == pending[m].acked + {id};
      }
    }
  }

  lemma AckKeeps(pending: Buffer, replicas: map<Id, Replica>, b: Book, id: Id, op: Op)
    requires Ok(pending, replicas, b) && (id, op) in b.covered
    ensures Ok(AckOne(pending, replicas.Keys, id, op), replicas, b)
  {
    var pending' := AckOne(pending, replicas.Keys, id, op);
    forall i | i in replicas && i !in b.lost ensures TrackedFor(pending', replicas[i], b, i) {
      assert TrackedFor(pending, replicas[i], b, i);
      forall o | (i, o) in b.owed ensures Tracked(pending', replicas[i], b, i, o) {
        assert Tracked(pending, replicas[i], b, i, o);
        if Retained(pending, i, o) && o == op && pending' != pending && i != id {
          assert i in pending[op.seqNum].acked || i !in pending[op.seqNum].acked;
        }
      }
    }
  }

  lemma TrackedGrows(pending: Buffer, replicas: map<Id, Replica>, b: Book, b': Book)
    requires Ok(pending, replicas, b) && Grows(b, b')
    ensures Ok(pending, replicas, b')
  {
    forall id | id in replicas && id !in b'.lost ensures TrackedFor(pending, replicas[id], b', id) {
      assert TrackedFor(pending, replicas[id], b, id);
      forall o | (id, o) in b'.owed ensures Tracked(pending, replicas[id], b', id, o) { assert Tracked(pending, replicas[id], b, id, o); }
    }
  }

  // ----- recovery

  /** Changes of one replica that forget nothing. */
  ghost predicate Keeps(r: Replica, r': Replica) {
    && (r.needsResync ==> r'.needsResync && r'.resyncFrom <= r.resyncFrom)
    && (r'.needsResync ==> r'.resyncFrom > 0)
    && r'.catchingUpFrom == r.catchingUpFrom && r'.deleteGap == r.deleteGap
  }

  lemma ReplicaKeeps(pending: Buffer, replicas: map<Id, Replica>, b: Book, id: Id, r': Replica)
    requires Ok(pending, replicas, b) && id in replicas && Keeps(replicas[id], r')
    ensures Ok(pending, replicas[id := r'], b)
  {
    if id !in b.lost {
      assert TrackedFor(pending, replicas[id], b, id);
      forall o | (id, o) in b.owed ensures Tracked(pending, r', b, id, o) { assert Tracked(pending, replicas[id], b, id, o); }
    }
    OthersTracked(pending, replicas, b, id, r');
  }

  /** Replacing one replica's record is no matter to the others. */
  lemma OthersTracked(pending: Buffer, replicas: map<Id, Replica>, b: Book, id: Id, r': Replica)
    requires TrackedAll(pending, replicas, b) && (id !in b.lost ==> TrackedFor(pending, r', b, id))
    ensures TrackedAll(pending, replicas[id := r'], b)
  {
    forall i | i in replicas[id := r'] && i !in b.lost ensures TrackedFor(pending, replicas[id := r'][i], b, i) {
      if i != id { assert TrackedFor(pending, replicas[i], b, i); }
    }
  }

  /** A catch-up takes over what the resync flag stood for. */
  function CatchUpBegun(r: Replica, since: nat, tooOld: bool): Replica {
    r.(needsResync := false, catchingUpFrom := since, deleteGap := r.deleteGap || (tooOld && !r.freshMember))
  }

  /** The catch-up's source reads everything registered by now. */
  ghost function Due(b: Book, id: Id, gap: bool): Book {
    b.(due := (set d | d in b.due && d.0 != id) + (set op | op in b.registered :: (id, op)),
       gaps := b.gaps + if gap then set op | op in b.registered :: (id, op) else {})
  }

  /** A write that only the resync flag stood for, and that a catch-up from `since`
      does not reach back to. */
  ghost predicate Forgotten(pending: Buffer, b: Book, id: Id, op: Op, since: nat) {
    && (id, op) in b.owed && op in b.registered && !Settled(b, id, op) && !Retained(pending, id, op)
    && op.ts + CATCH_UP_SKEW < since
  }

  /** After the start of a catch-up every write is still tracked, except exactly those
      it does not reach back to.  `since` was read from the flag earlier: if an older
      write was dropped in between, lowering the flag, that write is forgotten. */
  lemma CatchUpTracks(pending: Buffer, r: Replica, b: Book, id: Id, since: nat, tooOld: bool)
    requires since > 0 && (forall op :: (id, op) in b.owed ==> op in b.registered) && !(tooOld && !r.freshMember)
    ensures TrackedFor(pending, CatchUpBegun(r, since, tooOld), Due(b, id, false), id) <==>
      forall op :: !Forgotten(pending, b, id, op, since)
  {
    var r', b' := CatchUpBegun(r, since, tooOld), Due(b, id, false);
    forall op | (id, op) in b.owed
      ensures Tracked(pending, r', b', id, op) <==> !Forgotten(pending, b, id, op, since)
    {}
  }

  /** As long as the flag is still what was read, nothing is forgotten. */
  lemma UnloweredForgetsNothing(pending: Buffer, r: Replica, b: Book, id: Id, op: Op)
    requires TrackedFor(pending, r, b, id) && r.needsResync && r.catchingUpFrom == 0
    ensures !Forgotten(pending, b, id, op, r.resyncFrom)
  {
    if (id, op) in b.owed { assert Tracked(pending, r, b, id, op); }
  }

  /** The engine loses track of replica `id`, if something of it is forgotten. */
  ghost function Loses(b: Book, id: Id, forgets: bool): Book { b.(lost := b.lost + if forgets then {id} else {}) }

  /** What the start of a catch-up of `id` forgets. */
  ghost predicate Forgets(pending: Buffer, r: Replica, b: Book, id: Id, since: nat, tooOld: bool) {
    !(tooOld && !r.freshMember) && exists op :: Forgotten(pending, b, id, op, since)
  }

  ghost function BegunBook(pending: Buffer, r: Replica, b: Book, id: Id, since: nat, tooOld: bool): Book {
    Loses(Due(b, id, tooOld && !r.freshMember), id, Forgets(pending, r, b, id, since, tooOld))
  }

  lemma DueOther(pending: Buffer, r: Replica, b: Book, id: Id, gap: bool, forgets: bool, i: Id)
    requires i != id && TrackedFor(pending, r, b, i)
    ensures TrackedFor(pending, r, Loses(Due(b, id, gap), id, forgets), i)
  {
    forall o | (i, o) in b.owed ensures Tracked(pending, r, Loses(Due(b, id, gap), id, forgets), i, o) {
      assert Tracked(pending, r, b, i, o);
    }
  }

  lemma DueOwn(pending: Buffer, r: Replica, b: Book, id: Id, since: nat, tooOld: bool)
    requires since > 0 && (forall op :: (id, op) in b.owed ==> op in b.registered) && !Forgets(pending, r, b, id, since, tooOld)
    ensures TrackedFor(pending, CatchUpBegun(r, since, tooOld), BegunBook(pending, r, b, id, since, tooOld), id)
  {
    var r', b' := CatchUpBegun(r, since, tooOld), BegunBook(pending, r, b, id, since, tooOld);
    forall o | (id, o) in b.owed ensures Tracked(pending, r', b', id, o) {
      assert (tooOld && !r.freshMember) || !Forgotten(pending, b, id, o, since);
    }
  }

  lemma CatchUpKeeps(pending: Buffer, replicas: map<Id, Replica>, b: Book, id: Id, since: nat, tooOld: bool)
    requires Ok(pending, replicas, b) && id in replicas && since > 0
    ensures Ok(pending, replicas[id := CatchUpBegun(replicas[id], since, tooOld)], BegunBook(pending, replicas[id], b, id, since, tooOld))
  {
    var r', b' := CatchUpBegun(replicas[id], since, tooOld), BegunBook(pending, replicas[id], b, id, since, tooOld);
    forall i | i in replicas[id := r'] && i !in b'.lost ensures TrackedFor(pending, replicas[id := r'][i], b', i) {
      if i != id {
        assert TrackedFor(pending, replicas[i], b, i);
        DueOther(pending, replicas[i], b, id, tooOld && !replicas[id].freshMember, Forgets(pending, replicas[id], b, id, since, tooOld), i);
      } else {
        DueOwn(pending, replicas[id], b, id, since, tooOld);
      }
    }
  }

  /** What a catch-up that started at `since` brought. */
  ghost function Brought(b: Book, id: Id, since: nat): set<Op> {
    set op | op in b.registered && (id, op) in b.due && since <= op.ts + CATCH_UP_SKEW
  }

  lemma CatchUpDoneKeeps(pending: Buffer, replicas: map<Id, Replica>, b: Book, id: Id, ok: bool)
    requires Ok(pending, replicas, b) && id in replicas && replicas[id].catchingUpFrom != 0
    ensures var r, since := replicas[id], replicas[id].catchingUpFrom;
      && (ok ==> Ok(pending, replicas[id := r.(catchingUpFrom := 0, freshMember := false)], Covered(b, id, Brought(b, id, since))))
      && (!ok ==> Ok(pending, replicas[id := FlagResync(r.(catchingUpFrom := 0), since)], b))
  {
    var r, since := replicas[id], replicas[id].catchingUpFrom;
    var b' := if ok then Covered(b, id, Brought(b, id, since)) else b;
    var r' := if ok then r.(catchingUpFrom := 0, freshMember := false) else FlagResync(r.(catchingUpFrom := 0), since);
    forall i | i in replicas && i !in b'.lost ensures TrackedFor(pending, replicas[id := r'][i], b', i) {
      assert TrackedFor(pending, replicas[i], b, i);
      forall o | (i, o) in b'.owed ensures Tracked(pending, replicas[id := r'][i], b', i, o) {
        assert Tracked(pending, replicas[i], b, i, o);
      }
    }
  }

  // ----- watermarks

  /** A mark at or below everything the engine still tracks for the replica. */
  ghost predicate LowEnough(pending: Buffer, r: Replica, id: Id, mark: nat) {
    && (r.needsResync ==> mark <= r.resyncFrom)
    && (r.catchingUpFrom != 0 ==> mark <= r.catchingUpFrom)
    && forall n :: n in pending && id !in pending[n].acked ==> mark <= pending[n].op.ts
  }

  /** A retained write of time `ts` that the replica has not acked. */
  ghost predicate Unacked(pending: Buffer, id: Id, ts: nat) {
    exists n :: n in pending && id !in pending[n].acked && pending[n].op.ts == ts
  }

  /** The mark of a replica: now, or the time of the oldest write it may lack, where its
      catch-up would start or did, or a retained one it has not acked. */
  ghost predicate IsMark(pending: Buffer, r: Replica, id: Id, now: nat, mark: nat) {
    && mark <= now && LowEnough(pending, r, id, mark)
    && (|| mark == now || (r.needsResync && mark == r.resyncFrom) || (r.catchingUpFrom != 0 && mark == r.catchingUpFrom)
        || Unacked(pending, id, mark))
  }

  function Lowered(p: PendingOp, id: Id, mark: nat): nat { if id !in p.acked && p.op.ts < mark then p.op.ts else mark }

  /** The mark once all retained writes but those of `left` were looked at. */
  ghost predicate MarkSoFar(pending: Buffer, left: set<nat>, r: Replica, id: Id, now: nat, mark: nat) {
    && mark <= BaseMark(r, now) && (mark == BaseMark(r, now) || Unacked(pending, id, mark))
    && forall n :: n in pending && n !in left && id !in pending[n].acked ==> mark <= pending[n].op.ts
  }

  lemma MarkLowered(pending: Buffer, left: set<nat>, n: nat, r: Replica, id: Id, now: nat, mark: nat)
    requires MarkSoFar(pending, left, r, id, now, mark) && n in left && n in pending
    ensures MarkSoFar(pending, left - {n}, r, id, now, Lowered(pending[n], id, mark))
  {
    if id !in pending[n].acked { assert Unacked(pending, id, pending[n].op.ts); }
  }

  lemma MarkDone(pending: Buffer, r: Replica, id: Id, now: nat, mark: nat)
    requires MarkSoFar(pending, {}, r, id, now, mark)
    ensures IsMark(pending, r, id, now, mark)
  {}

  /** Every write older than the mark, less the skew, is on the replica, unless the engine
      says that deletes may be missing there, or said so before it last began anew. */
  ghost predicate HeldBefore(replicas: map<Id, Replica>, b: Book, id: Id, mark: nat) {
    id in replicas ==>
      forall op :: (id, op) in b.owed ==>
        (id, op) in b.covered || replicas[id].deleteGap || (id, op) in b.past || mark <= op.ts + CATCH_UP_SKEW
  }

  /** No lost write: everything older than the mark, less the skew, is covered. */
  lemma LowMarkOk(pending: Buffer, replicas: map<Id, Replica>, b: Book, id: Id, mark: nat)
    requires Ok(pending, replicas, b) && id in replicas && id !in b.lost
    requires LowEnough(pending, replicas[id], id, mark)
    ensures MarkOk(b, id, mark) && HeldBefore(replicas, b, id, mark)
  {
    assert TrackedFor(pending, replicas[id], b, id);
    forall op | (id, op) in b.owed ensures Settled(b, id, op) || mark <= op.ts + CATCH_UP_SKEW {
      assert Tracked(pending, replicas[id], b, id, op);
    }
  }

  function Lagged(replicas: map<Id, Replica>): map<Id, Replica> {
    map id | id in replicas :: if replicas[id].state == InSync then replicas[id].(state := Lagging) else replicas[id]
  }

  // ----- eviction

  ghost function OldestOf(pending: Buffer): (m: nat)
    requires pending != map[]
    ensures m in pending && forall n :: n in pending ==> m <= n
  {
    Least(pending.Keys)
  }

  /** Buffer and replicas after the `k` oldest writes were dropped, each flagging those
      that had not acked it. */
  ghost function Dropped(pending: Buffer, replicas: map<Id, Replica>, k: nat): (Buffer, map<Id, Replica>) {
    if k == 0 || pending == map[] then (pending, replicas)
    else Dropped(WithoutOldest(pending), Flagged(replicas, pending[OldestOf(pending)]), k - 1)
  }

  ghost function WithoutOldest(pending: Buffer): Buffer
    requires pending != map[]
  {
    pending - {OldestOf(pending)}
  }

  ghost function MissedTimes(pending: Buffer, left: Buffer, id: Id): set<nat> {
    set m | m in pending && m !in left && id !in pending[m].acked :: pending[m].op.ts
  }

  /** Of the writes, the `k` oldest went, all if there were fewer; the others stay as they are. */
  ghost predicate OldestGone(pending: Buffer, left: Buffer, k: nat) {
    && left.Keys <= pending.Keys && (forall n :: n in left ==> left[n] == pending[n])
    && |left| == (if k <= |pending| then |pending| - k else 0)
    && (forall m, n :: m in pending && m !in left && n in left ==> m < n)
  }

  lemma OldestGoneMore(pending: Buffer, rest: Buffer, o: nat, left: Buffer, k: nat)
    requires o in pending && (forall n :: n in pending ==> o <= n) && rest == pending - {o} && OldestGone(rest, left, k)
    ensures OldestGone(pending, left, k + 1)
  {
    assert pending.Keys == rest.Keys + {o};
  }

  lemma MissedMore(pending: Buffer, rest: Buffer, o: nat, left: Buffer, id: Id)
    requires o in pending && rest == pending - {o} && left.Keys <= rest.Keys
    ensures MissedTimes(pending, left, id) == MissedTimes(rest, left, id) + if id in pending[o].acked then {} else {pending[o].op.ts}
  {
    forall m | m in pending && m !in left && id !in pending[m].acked && m != o ensures pending[m].op.ts in MissedTimes(rest, left, id) {
      assert m in rest && rest[m] == pending[m];
    }
  }

  lemma DropsOne(pending: Buffer, replicas: map<Id, Replica>, k: nat)
    requires k > 0 && pending != map[]
    ensures Dropped(pending, replicas, k) == Dropped(WithoutOldest(pending), Flagged(replicas, pending[OldestOf(pending)]), k - 1)
  {}

  /** Each replica is flagged for exactly the writes that went and it had not acked. */
  ghost predicate AllFlagged(pending: Buffer, left: Buffer, replicas: map<Id, Replica>, after: map<Id, Replica>) {
    && after.Keys == replicas.Keys
    && forall id :: id in replicas ==> FlaggedFor(replicas[id], after[id], MissedTimes(pending, left, id))
  }

  lemma AllFlaggedMore(pending: Buffer, rest: Buffer, o: nat, left: Buffer, replicas: map<Id, Replica>, after: map<Id, Replica>)
    requires o in pending && rest == pending - {o} && left.Keys <= rest.Keys
    requires AllFlagged(rest, left, Flagged(replicas, pending[o]), after)
    ensures AllFlagged(pending, left, replicas, after)
  {
    var p, flagged := pending[o], Flagged(replicas, pending[o]);
    forall id | id in replicas ensures FlaggedFor(replicas[id], after[id], MissedTimes(pending, left, id)) {
      assert FlaggedFor(flagged[id], after[id], MissedTimes(rest, left, id));
      MissedMore(pending, rest, o, left, id);
      FlaggedAlso(replicas[id], p, id, after[id], MissedTimes(rest, left, id));
    }
  }

  lemma NoneGone(pending: Buffer, k: nat)
    requires k == 0 || pending == map[]
    ensures OldestGone(pending, pending, k)
  {}

  lemma NoneFlagged(pending: Buffer, replicas: map<Id, Replica>)
    ensures AllFlagged(pending, pending, replicas, replicas)
  {
    forall id | id in replicas ensures FlaggedFor(replicas[id], replicas[id], MissedTimes(pending, pending, id)) {
      assert MissedTimes(pending, pending, id) == {};
    }
  }

  /** What dropping the `k` oldest writes does. */
  lemma {:induction false} DroppedMeans(pending: Buffer, replicas: map<Id, Replica>, k: nat, d: (Buffer, map<Id, Replica>))
    requires d == Dropped(pending, replicas, k)
    ensures OldestGone(pending, d.0, k) && AllFlagged(pending, d.0, replicas, d.1)
    decreases k
  {
    if k > 0 && pending != map[] {
      var o, rest := OldestOf(pending), WithoutOldest(pending);
      DropsOne(pending, replicas, k);
      DroppedMeans(rest, Flagged(replicas, pending[o]), k - 1, d);
      OldestGoneMore(pending, rest, o, d.0, k - 1);
      AllFlaggedMore(pending, rest, o, d.0, replicas, d.1);
    } else {
      NoneFlagged(pending, replicas);
      NoneGone(pending, k);
    }
  }

  lemma FlaggedAlso(r: Replica, p: PendingOp, id: Id, r': Replica, times: set<nat>)
    requires FlaggedFor(if id in p.acked then r else FlagResync(r, p.op.ts), r', times)
    ensures FlaggedFor(r, r', times + if id in p.acked then {} else {p.op.ts})
  {
    if id in p.acked { assert times + {} == times; } else { FlaggedFirst(r, r', times, p.op.ts); }
  }

  lemma FlaggedFirst(r: Replica, r': Replica, times: set<nat>, ts: nat)
    requires FlaggedFor(FlagResync(r, ts), r', times)
    ensures FlaggedFor(r, r', times + {ts})
  {}

  /** The buffer stays within its limit. */
  lemma BoundedFits(pending: Buffer, replicas: map<Id, Replica>, max: nat)
    requires |pending| <= max + 1
    ensures |Bounded(pending, replicas, max).0| <= max
    ensures |pending| == max + 1 ==> |Bounded(pending, replicas, max).0| == max + 1 - Max(1, (max + 1) / 10)
    ensures |pending| <= max ==> Bounded(pending, replicas, max) == (pending, replicas)
  {
    DroppedMeans(pending, replicas, Tenth(|pending|), Dropped(pending, replicas, Tenth(|pending|)));
  }

  lemma {:induction false} DroppedKeys(pending: Buffer, replicas: map<Id, Replica>, k: nat)
    ensures Dropped(pending, replicas, k).1.Keys == replicas.Keys
    decreases k
  {
    if k > 0 && pending != map[] { DroppedKeys(WithoutOldest(pending), Flagged(replicas, pending[OldestOf(pending)]), k - 1); }
  }

  /** At least one write goes, and a tenth of them. */
  function Tenth(n: nat): nat { if n / 10 < 1 then 1 else n / 10 }

  ghost function AfterWrite(pending: Buffer, replicas: map<Id, Replica>, max: nat, op: Op, queueFull: bool): (Buffer, map<Id, Replica>) {
    var d := Bounded(pending[op.seqNum := PendingOp(op, {})], replicas, max);
    (d.0, if queueFull then Lagged(d.1) else d.1)
  }

  ghost function Bounded(pending: Buffer, replicas: map<Id, Replica>, max: nat): (Buffer, map<Id, Replica>) {
    if |pending| > max then Dropped(pending, replicas, Tenth(|pending|)) else (pending, replicas)
  }

  // ----- the engine

  class Engine {
    var pending: Buffer
    var replicas: map<Id, Replica>
    var maxRetained: nat
    var markGen: nat
    var loaded: map<Id, nat>
    var stateCorrupt: bool
    // The state file, and the generation it was computed at.
    var persisted: map<Id, nat>
    var lastPersistedGen: nat
    ghost var book: Book

    ghost predicate Valid()
      reads this
    {
      && Ok(pending, replicas, book)
      && FileOk(replicas.Keys, book, Snapshot(persisted, lastPersistedGen), loaded, markGen)
    }

    constructor (maxRetained: nat)
      ensures Valid() && replicas == map[] && persisted == map[] && loaded == map[] && pending == map[] && !stateCorrupt
      ensures book == Book({}, {}, {}, {}, {}, map[], map[], {}, {}, {}, 0) && this.maxRetained == maxRetained && markGen == 0
    {
      this.maxRetained, stateCorrupt := maxRetained, false;
      pending, replicas, markGen, loaded, persisted, lastPersistedGen := map[], map[], 0, map[], map[], 0;
      book := Book({}, {}, {}, {}, {}, map[], map[], {}, {}, {}, 0);
    }

    /** A local write is registered before anything is sent.  Its time is at most the
        skew behind any watermark taken so far. */
    method OnLocalWrite(op: Op, queueFull: bool)
      requires Valid() && op.ts > 0 && (forall o :: o in book.registered ==> o.seqNum != op.seqNum)
      requires book.clock <= op.ts + CATCH_UP_SKEW
      modifies `pending, `replicas, `book
      ensures Valid() && replicas.Keys == old(replicas).Keys && book == Registered(old(book), op)
      ensures (pending, replicas) == AfterWrite(old(pending), old(replicas), maxRetained, op, queueFull)
    {
      Register(op);
      Bound();
      if queueFull { MarkLagging(); }
    }

    /** Keep the buffer within its limit. */
    method Bound()
      requires Valid()
      modifies `pending, `replicas
      ensures Valid() && replicas.Keys == old(replicas).Keys
      ensures (pending, replicas) == Bounded(old(pending), old(replicas), maxRetained)
    {
      if |pending| > maxRetained { EvictOldest(); }
    }

    method Register(op: Op)
      requires Valid() && op.ts > 0 && (forall o :: o in book.registered ==> o.seqNum != op.seqNum)
      requires book.clock <= op.ts + CATCH_UP_SKEW
      modifies `pending, `book
      ensures Valid() && book == Registered(old(book), op) && pending == old(pending)[op.seqNum := PendingOp(op, {})]
    {
      RegisterKeeps(pending, replicas, book, op);
      FileRegisters(replicas.Keys, book, op, Snapshot(persisted, lastPersistedGen), loaded, markGen);
      pending := pending[op.seqNum := PendingOp(op, {})];
      book := Registered(book, op);
    }

    /** The write queue was full: anti-entropy will re-send what is retained. */
    method MarkLagging()
      requires Valid()
      modifies `replicas
      ensures Valid() && replicas == Lagged(old(replicas)) && replicas.Keys == old(replicas).Keys
      ensures forall id :: id in replicas ==>
        replicas[id] == old(replicas)[id].(state := if old(replicas)[id].state == InSync then Lagging else old(replicas)[id].state)
    {
      ghost var before := replicas;
      replicas := Lagged(replicas);
      forall id | id in replicas && id !in book.lost ensures TrackedFor(pending, replicas[id], book, id) {
        assert TrackedFor(pending, before[id], book, id);
        forall o | (id, o) in book.owed ensures Tracked(pending, replicas[id], book, id, o) { assert Tracked(pending, before[id], book, id, o); }
      }
    }

    /** Drop the oldest tenth, at least one; whoever had not acked a dropped write is
        flagged for a catch-up. */
    method EvictOldest()
      requires Valid() && pending != map[]
      modifies `pending, `replicas
      ensures Valid() && replicas.Keys == old(replicas).Keys
      ensures (pending, replicas) == Dropped(old(pending), old(replicas), Tenth(|old(pending)|))
    {
      var n := Tenth(|pending|);
      ghost var all := Dropped(pending, replicas, n);
      DroppedKeys(pending, replicas, n);
      for k := 0 to n
        invariant Valid() && n - k <= |pending|
        invariant all == Dropped(pending, replicas, n - k)
      {
        DropOldest();
      }
    }

    method DropOldest()
      requires Valid() && pending != map[]
      modifies `pending, `replicas
      ensures Valid() && replicas.Keys == old(replicas).Keys && |pending| + 1 == |old(pending)|
      ensures pending == WithoutOldest(old(pending)) && replicas == Flagged(old(replicas), old(pending)[OldestOf(old(pending))])
    {
      var m := Oldest();
      DropFlagged(m);
    }

    method Oldest() returns (m: nat)
      requires pending != map[]
      ensures m == OldestOf(pending)
    {
      var keys := pending.Keys;
      m :| m in keys;
      keys := keys - {m};
      while keys != {}
        invariant m in pending && forall n :: n in pending && n !in keys ==> m <= n
        decreases keys
      {
        var n :| n in keys;
        if n < m { m := n; }
        keys := keys - {n};
      }
    }

    method DropFlagged(n: nat)
      requires Valid() && n in pending
      modifies `pending, `replicas
      ensures Valid() && pending == old(pending) - {n} && replicas == Flagged(old(replicas), old(pending)[n])
      ensures |pending| + 1 == |old(pending)|
    {
      var p := pending[n];
      DropKeeps(pending, replicas, book, n);
      ghost var before := pending;
      replicas := Flagged(replicas, p);
      pending := pending - {n};
      assert before.Keys == pending.Keys + {n};
    }

    // ----- sending

    /** Replica `id` acknowledged `ops`: each is marked, and dropped once every
        registered replica acked it. */
    method RecordAcks(id: Id, ops: seq<Op>)
      requires Valid() && forall op :: op in ops ==> (id, op) in book.covered
      modifies `pending
      ensures Valid() && pending == AckMany(old(pending), replicas.Keys, id, ops, |ops|)
      ensures forall op :: op in ops ==> !Retained(pending, id, op)
    {
      for i := 0 to |ops|
        invariant Valid() && pending == AckMany(old(pending), replicas.Keys, id, ops, i)
        invariant forall j :: 0 <= j < i ==> !Retained(pending, id, ops[j])
      {
        AckKeeps(pending, replicas, book, id, ops[i]);
        pending := AckOne(pending, replicas.Keys, id, ops[i]);
      }
    }

    /** A batch reached the replica and was acknowledged. */
    method Delivered(id: Id, ops: seq<Op>)
      requires Valid()
      modifies `pending, `book
      ensures Valid() && book == Covered(old(book), id, set op | op in ops)
      ensures pending == AckMany(old(pending), replicas.Keys, id, ops, |ops|)
    {
      var b' := Covered(book, id, set op | op in ops);
      TrackedGrows(pending, replicas, book, b');
      FileGrows(replicas.Keys, book, b', Snapshot(persisted, lastPersistedGen), loaded, markGen);
      book := b';
      RecordAcks(id, ops);
    }

    /** The live path: success returns a lagging replica to sync and never revives a
        failed one; failure makes it failed, and what it missed that is no longer
        retained is flagged. */
    method SendToReplica(id: Id, ops: seq<Op>, ok: bool)
      requires Valid() && id in replicas && forall op :: op in ops ==> op.ts > 0
      modifies `pending, `replicas, `book
      ensures Valid() && replicas.Keys == old(replicas).Keys
      ensures ok ==> book == Covered(old(book), id, set op | op in ops) && pending == AckMany(old(pending), replicas.Keys, id, ops, |ops|)
      ensures ok ==> replicas == old(replicas)[id := old(replicas)[id].(state := replicas[id].state)]
      ensures ok ==> replicas[id].state == if old(replicas)[id].state == Lagging then InSync else old(replicas)[id].state
      ensures !ok ==> book == old(book) && pending == old(pending)
      ensures !ok ==> replicas == old(replicas)[id := FlagMany(pending, old(replicas)[id].(state := Failed), ops, |ops|)]
    {
      if ok {
        Delivered(id, ops);
        if replicas[id].state == Lagging { SetState(id, InSync); }
      } else {
        SendFailed(id, ops);
      }
    }

    method SendFailed(id: Id, ops: seq<Op>)
      requires Valid() && id in replicas && forall op :: op in ops ==> op.ts > 0
      modifies `replicas
      ensures Valid() && replicas == old(replicas)[id := FlagMany(pending, old(replicas)[id].(state := Failed), ops, |ops|)]
    {
      SetState(id, Failed);
      FlagMissing(id, ops);
    }

    method FlagMissing(id: Id, ops: seq<Op>)
      requires Valid() && id in replicas && forall op :: op in ops ==> op.ts > 0
      modifies `replicas
      ensures Valid() && replicas == old(replicas)[id := FlagMany(pending, old(replicas)[id], ops, |ops|)]
    {
      for i := 0 to |ops|
        invariant Valid() && replicas == old(replicas)[id := FlagMany(pending, old(replicas)[id], ops, i)]
      {
        if !InBuffer(pending, ops[i]) { FlagOne(id, ops[i].ts); }
      }
    }

    method FlagOne(id: Id, ts: nat)
      requires Valid() && id in replicas && ts > 0
      modifies `replicas
      ensures Valid() && replicas == old(replicas)[id := FlagResync(old(replicas)[id], ts)]
    {
      ReplicaKeeps(pending, replicas, book, id, FlagResync(replicas[id], ts));
      replicas := replicas[id := FlagResync(replicas[id], ts)];
    }

    method SetState(id: Id, state: ReplicaState)
      requires Valid() && id in replicas
      modifies `replicas
      ensures Valid() && replicas == old(replicas)[id := old(replicas)[id].(state := state)]
    {
      ReplicaKeeps(pending, replicas, book, id, replicas[id].(state := state));
      replicas := replicas[id := replicas[id].(state := state)];
    }

    // ----- recovery

    /** The probe of a failed replica succeeded; `since` is where a catch-up would have
        to start, as read now. */
    method RecoverBegin(id: Id) returns (needResync: bool, since: nat)
      requires Valid() && id in replicas && replicas[id].state == Failed
      modifies `replicas
      ensures Valid() && replicas == old(replicas)[id := old(replicas)[id].(state := SyncPending)]
      ensures needResync == replicas[id].needsResync && since == replicas[id].resyncFrom
    {
      SetState(id, SyncPending);
      return replicas[id].needsResync, replicas[id].resyncFrom;
    }

    /** The flag read before is cleared and the catch-up starts from what was read.  If
        an older write was dropped in between, the replica's missing it is forgotten. */
    method CatchUpBegin(id: Id, since: nat, tooOld: bool)
      requires Valid() && id in replicas && replicas[id].needsResync && replicas[id].catchingUpFrom == 0 && since > 0
      modifies `replicas, `book
      ensures Valid() && replicas == old(replicas)[id := CatchUpBegun(old(replicas)[id], since, tooOld)]
      ensures book == BegunBook(old(pending), old(replicas)[id], old(book), id, since, tooOld)
      ensures replicas[id].deleteGap <==> old(replicas)[id].deleteGap || (tooOld && !old(replicas)[id].freshMember)
      ensures !replicas[id].needsResync && replicas[id].catchingUpFrom == since
      ensures since == old(replicas)[id].resyncFrom ==> book.lost == old(book).lost
    {
      CatchUpKeeps(pending, replicas, book, id, since, tooOld);
      ghost var b' := BegunBook(pending, replicas[id], book, id, since, tooOld);
      FileGrows(replicas.Keys, book, b', Snapshot(persisted, lastPersistedGen), loaded, markGen);
      if since == replicas[id].resyncFrom && id !in book.lost {
        assert TrackedFor(pending, replicas[id], book, id);
        forall op ensures !Forgotten(pending, book, id, op, since) { UnloweredForgetsNothing(pending, replicas[id], book, id, op); }
      }
      replicas := replicas[id := CatchUpBegun(replicas[id], since, tooOld)];
      book := b';
    }

    /** The catch-up ended: everything it covered is on the replica, or the flag is set
        again from where it started. */
    method CatchUpEnd(id: Id, ok: bool)
      requires Valid() && id in replicas && replicas[id].catchingUpFrom != 0
      modifies `replicas, `book
      ensures Valid() && id in replicas && replicas == old(replicas)[id := replicas[id]] && replicas[id].catchingUpFrom == 0
      ensures var was := old(replicas)[id];
        && replicas[id] == was.(catchingUpFrom := 0, freshMember := !ok && was.freshMember,
                                needsResync := !ok || was.needsResync, resyncFrom := replicas[id].resyncFrom)
        && replicas[id].resyncFrom ==
           if ok then was.resyncFrom else if was.needsResync then Min(was.resyncFrom, was.catchingUpFrom) else was.catchingUpFrom
      ensures book == if ok then Covered(old(book), id, Brought(old(book), id, old(replicas)[id].catchingUpFrom)) else old(book)
    {
      var r, since := replicas[id], replicas[id].catchingUpFrom;
      CatchUpDoneKeeps(pending, replicas, book, id, ok);
      if ok {
        ghost var b' := Covered(book, id, Brought(book, id, since));
        FileGrows(replicas.Keys, book, b', Snapshot(persisted, lastPersistedGen), loaded, markGen);
        replicas := replicas[id := r.(catchingUpFrom := 0, freshMember := false)];
        book := b';
      } else {
        replicas := replicas[id := FlagResync(r.(catchingUpFrom := 0), since)];
      }
    }

    /** Nothing retained is un-acked: back in sync, unless writes were dropped during
        the catch-up. */
    method RecoverFinish(id: Id)
      requires Valid() && id in replicas && forall n :: n in pending ==> id in pending[n].acked
      modifies `replicas
      ensures Valid() && replicas == old(replicas)[id := old(replicas)[id].(state := if old(replicas)[id].needsResync then Failed else InSync)]
    {
      SetState(id, if replicas[id].needsResync then Failed else InSync);
    }

    // ----- membership

    /** Register a replica.  One the state file listed, or any if the file was damaged,
        starts failed with a catch-up; any other is taken to hold everything.  It is
        tracked exactly if the file was damaged, or its mark is low enough for all it is
        owed, or, unlisted, nothing it is owed is missing. */
    method AddReplica(id: Id)
      requires Valid() && id !in replicas
      modifies `replicas, `book
      ensures Valid() && replicas == old(replicas)[id := FirstRecord(loaded, stateCorrupt, id)]
      ensures book == Enrolled(old(pending), old(book), id, FirstRecord(loaded, stateCorrupt, id), markGen)
      ensures id !in book.lost <==> Covers(pending, old(book), loaded, stateCorrupt, id)
      ensures id !in book.lost <==> TrackedFor(pending, replicas[id], book, id)
      ensures id in loaded && id !in old(book).lost ==> id !in book.lost
      ensures replicas[id] ==
        if stateCorrupt then Replica(Failed, true, 1, 0, false, false)
        else if id in loaded then Replica(Failed, true, Max(1, loaded[id]), 0, false, false)
        else Replica(InSync, false, 0, 0, false, false)
    {
      var r := FirstRecord(loaded, stateCorrupt, id);
      FirstTracked(pending, book, loaded, stateCorrupt, id);
      if id in loaded && id !in book.lost { assert MarkOk(book, id, loaded[id]); }
      EnrolledTracks(pending, book, id, r, markGen);
      Enrol(id, r);
    }

    /** A replica that joined through a membership change starts empty, is owed
        everything this node ever wrote, and gets a copy of it first.  It is registered
        in one section and marked in another. */
    method AddMemberReplica(id: Id)
      requires Valid() && id !in replicas
      modifies `replicas, `book
      ensures Valid() && replicas == old(replicas)[id := Emptied(FirstRecord(loaded, stateCorrupt, id))]
      ensures book == Reborn(old(book), id, markGen)
    {
      ghost var b, was := book, replicas;
      var r := FirstRecord(loaded, stateCorrupt, id);
      Enrol(id, r);
      RebornSame(b, book, id, markGen);
      UpdateTwice(was, id, r, Emptied(r));
      MarkFresh(id);
    }

    /** The second section; others may run before it. */
    method MarkFresh(id: Id)
      requires Valid() && id in replicas
      modifies `replicas, `book
      ensures Valid() && replicas == old(replicas)[id := Emptied(old(replicas)[id])] && book == Reborn(old(book), id, markGen)
      ensures replicas[id] == old(replicas)[id].(state := Failed, needsResync := true, resyncFrom := 1, freshMember := true)
    {
      ghost var b := book;
      book := Reborn(book, id, markGen);
      RebornFile(replicas.Keys, b, id, Snapshot(persisted, lastPersistedGen), loaded, markGen);
      assert replicas.Keys + {id} == replicas.Keys;
      RebornTracks(pending, replicas, b, id, Emptied(replicas[id]), markGen);
      replicas := replicas[id := Emptied(replicas[id])];
    }

    /** Unregister a replica; writes that waited only for it leave the buffer, and
        nothing is owed to it any more. */
    method RemoveReplica(id: Id)
      requires Valid()
      modifies `pending, `replicas, `book
      ensures Valid() && replicas == old(replicas) - {id} && id !in replicas && book == Left(old(book), id)
      ensures pending == Awaited(old(pending), replicas.Keys)
      ensures forall n :: n in pending <==> n in old(pending) && exists i :: i in replicas && i !in old(pending)[n].acked
      ensures forall n :: n in pending ==> pending[n] == old(pending)[n]
    {
      LeftTracks(pending, replicas, book, id);
      LeftFile(replicas.Keys, book, id, Snapshot(persisted, lastPersistedGen), loaded, markGen);
      replicas := replicas - {id};
      pending := Awaited(pending, replicas.Keys);
      book := Left(book, id);
    }

    // ----- watermarks and the state file

    /** Per replica, a time before which it holds everything. */
    method Watermarks(now: nat) returns (s: Snapshot)
      requires Valid()
      modifies `markGen, `book
      ensures Valid() && SnapshotOk(replicas.Keys, book, s) && s.marks.Keys == replicas.Keys
      ensures s.gen == markGen == old(markGen) + 1 && book == old(book).(clock := Max(old(book).clock, now))
      ensures forall id :: id in replicas ==> IsMark(pending, replicas[id], id, now, s.marks[id])
      ensures forall id :: id in replicas && id !in book.lost ==> HeldBefore(replicas, book, id, s.marks[id])
    {
      var marks := OldestUnacked(now);
      markGen := markGen + 1;
      Tick(now);
      s := Snapshot(marks, markGen);
      forall id | id in marks && id !in book.lost ensures MarkOk(book, id, marks[id]) && HeldBefore(replicas, book, id, marks[id]) {
        LowMarkOk(pending, replicas, book, id, marks[id]);
      }
    }

    ghost method Tick(now: nat)
      requires Valid()
      modifies `book
      ensures Valid() && book == old(book).(clock := Max(old(book).clock, now))
    {
      var b' := book.(clock := Max(book.clock, now));
      TrackedGrows(pending, replicas, book, b');
      FileGrows(replicas.Keys, book, b', Snapshot(persisted, lastPersistedGen), loaded, markGen);
      book := b';
    }

    method OldestUnacked(now: nat) returns (marks: map<Id, nat>)
      ensures marks.Keys == replicas.Keys
      ensures forall id :: id in replicas ==> IsMark(pending, replicas[id], id, now, marks[id])
    {
      marks := map id | id in replicas :: BaseMark(replicas[id], now);
      var left := pending.Keys;
      while left != {}
        invariant left <= pending.Keys && marks.Keys == replicas.Keys
        invariant forall id {:trigger marks[id]} :: id in replicas ==> MarkSoFar(pending, left, replicas[id], id, now, marks[id])
        decreases left
      {
        var n :| n in left;
        var p := pending[n];
        forall id | id in replicas ensures MarkSoFar(pending, left - {n}, replicas[id], id, now, Lowered(p, id, marks[id])) {
          MarkLowered(pending, left, n, replicas[id], id, now, marks[id]);
        }
        marks := map id | id in marks :: Lowered(p, id, marks[id]);
        left := left - {n};
      }
      forall id | id in replicas ensures IsMark(pending, replicas[id], id, now, marks[id]) {
        MarkDone(pending, replicas[id], id, now, marks[id]);
      }
    }

    /** Write a snapshot to the state file; one older than what is there is dropped, so
        no recorded replica disappears.  A failed write leaves the old file. */
    method Persist(s: Snapshot, works: bool)
      requires Valid() && SnapshotOk(replicas.Keys, book, s) && s.gen <= markGen
      modifies `persisted, `lastPersistedGen
      ensures Valid()
      ensures persisted == if works && old(lastPersistedGen) <= s.gen then s.marks else old(persisted)
      ensures lastPersistedGen == if works && old(lastPersistedGen) <= s.gen && s.marks != old(persisted) then s.gen else old(lastPersistedGen)
      ensures forall id :: id in replicas && id in old(persisted) && book.added[id] < old(lastPersistedGen) ==> id in persisted
    {
      if s.gen < lastPersistedGen || s.marks == persisted { return; }
      if !works { return; }
      persisted, lastPersistedGen := s.marks, s.gen;
    }

    /** The process restarts: the buffer and all flags are gone, the state file remains,
        unless it turns out `damaged`.  Everything owed is still owed.  Lost are exactly
        the replicas the file is wrong about; it is right about a replica it was written
        for after that last became an empty member. */
    method Restart(damaged: bool)
      requires Valid()
      modifies this
      ensures Valid() && replicas == map[] && pending == map[] && persisted == old(persisted) && stateCorrupt == damaged
      ensures loaded == (if damaged then map[] else persisted) && maxRetained == old(maxRetained)
      ensures book == Reopened(old(book), persisted)
      ensures forall id :: id in book.lost <==> id in old(book).lost || Wrong(old(book), id, persisted)
      ensures forall id :: Speaks(old(book), id, old(lastPersistedGen)) ==> id !in book.lost
    {
      var next := if damaged then map[] else persisted;
      RestartedOk(pending, replicas, book, Snapshot(persisted, lastPersistedGen), loaded, markGen, next);
      Begin(next, damaged, Reopened(book, persisted));
    }

    /** A process begins with an empty buffer and no replicas. */
    method Begin(next: map<Id, nat>, damaged: bool, ghost b: Book)
      requires Ok(map[], map[], b) && FileOk({}, b, Snapshot(persisted, 0), next, 0)
      modifies `pending, `replicas, `markGen, `lastPersistedGen, `loaded, `stateCorrupt, `book
      ensures Valid() && replicas == map[] && pending == map[] && stateCorrupt == damaged && loaded == next && book == b
    {
      pending, replicas, markGen, lastPersistedGen, loaded, stateCorrupt, book := map[], map[], 0, 0, next, damaged, b;
      assert replicas.Keys == {};
    }

    /** Nothing retained, every replica in sync and without a catch-up: then every
        replica holds every write it is owed, so this node may leave. */
    method Drained() returns (ok: bool)
      requires Valid()
      ensures ok ==> forall id, op :: id in replicas && id !in book.lost && (id, op) in book.owed ==>
        (id, op) in book.covered || replicas[id].deleteGap || (id, op) in book.past
      ensures ok <==> pending == map[] && forall id :: id in replicas ==>
        replicas[id].state == InSync && !replicas[id].needsResync && replicas[id].catchingUpFrom == 0
    {
      if pending != map[] { return false; }
      var left := replicas.Keys;
      while left != {}
        invariant left <= replicas.Keys
        invariant forall id :: id in replicas && id !in left ==>
          replicas[id].state == InSync && !replicas[id].needsResync && replicas[id].catchingUpFrom == 0
        decreases left
      {
        var id :| id in left;
        var r := replicas[id];
        if r.state != InSync || r.needsResync || r.catchingUpFrom != 0 { return false; }
        left := left - {id};
      }
      forall id, op | id in replicas && id !in book.lost && (id, op) in book.owed
        ensures (id, op) in book.covered || replicas[id].deleteGap || (id, op) in book.past
      {
        assert TrackedFor(pending, replicas[id], book, id);
        assert Tracked(pending, replicas[id], book, id, op);
      }
      return true;
    }

    // ----- helpers

    method Enrol(id: Id, r: Replica)
      requires Valid() && id !in replicas && (r.needsResync ==> r.resyncFrom > 0)
      modifies `replicas, `book
      ensures Valid() && replicas == old(replicas)[id := r] && book == Enrolled(old(pending), old(book), id, r, markGen)
    {
      EnrolledOk(pending, replicas, book, id, r, Snapshot(persisted, lastPersistedGen), loaded, markGen);
      book := Enrolled(pending, book, id, r, markGen);
      replicas := replicas[id := r];
    }
  }

  function BaseMark(r: Replica, now: nat): nat {
    var w := if r.needsResync && r.resyncFrom < now then r.resyncFrom else now;
    if r.catchingUpFrom != 0 && r.catchingUpFrom < w then r.catchingUpFrom else w
  }

  /** How a replica is recorded when it is registered. */
  function FirstRecord(loaded: map<Id, nat>, stateCorrupt: bool, id: Id): Replica {
    if id in loaded || stateCorrupt then
      Replica(Failed, true, if stateCorrupt || loaded[id] == 0 then 1 else loaded[id], 0, false, false)
    else Replica(InSync, false, 0, 0, false, false)
  }

  /** Every write owed to the replica is on it, or still in the buffer for it. */
  ghost predicate AllHeld(pending: Buffer, b: Book, id: Id) {
    forall op :: (id, op) in b.owed ==> Settled(b, id, op) || Retained(pending, id, op)
  }

  /** The start of a catch-up from `mark`, or the buffer, reaches every write owed. */
  ghost predicate MarkHeld(pending: Buffer, b: Book, id: Id, mark: nat) {
    forall op :: (id, op) in b.owed ==> Settled(b, id, op) || Retained(pending, id, op) || mark <= op.ts + CATCH_UP_SKEW
  }

  /** How a replica is registered covers everything it is owed. */
  ghost predicate Covers(pending: Buffer, b: Book, loaded: map<Id, nat>, stateCorrupt: bool, id: Id) {
    stateCorrupt || if id in loaded then MarkHeld(pending, b, id, loaded[id]) else AllHeld(pending, b, id)
  }

  lemma FirstTracked(pending: Buffer, b: Book, loaded: map<Id, nat>, stateCorrupt: bool, id: Id)
    requires (forall op :: (id, op) in b.owed ==> op in b.registered) && (forall op :: op in b.registered ==> op.ts > 0)
    ensures TrackedFor(pending, FirstRecord(loaded, stateCorrupt, id), b, id) <==> Covers(pending, b, loaded, stateCorrupt, id)
  {
    var r := FirstRecord(loaded, stateCorrupt, id);
    forall op | (id, op) in b.owed
      ensures Tracked(pending, r, b, id, op) <==>
        (stateCorrupt || Settled(b, id, op) || Retained(pending, id, op) || (id in loaded && loaded[id] <= op.ts + CATCH_UP_SKEW))
    {}
  }

  /** Registered with record `r`.  A replica that was lost and is tracked again is one the
      recorded marks are not about. */
  ghost function Enrolled(pending: Buffer, b: Book, id: Id, r: Replica, markGen: nat): Book {
    var known := TrackedFor(pending, r, b, id);
    b.(members := b.members + {id}, added := b.added[id := markGen],
       lost := if known then b.lost - {id} else b.lost + {id},
       reborn := if known && id in b.lost then b.reborn[id := markGen] else b.reborn)
  }

  lemma EnrolledTracks(pending: Buffer, b: Book, id: Id, r: Replica, markGen: nat)
    ensures TrackedFor(pending, r, Enrolled(pending, b, id, r, markGen), id) <==> TrackedFor(pending, r, b, id)
  {
    var b' := Enrolled(pending, b, id, r, markGen);
    forall op | (id, op) in b.owed ensures Tracked(pending, r, b', id, op) <==> Tracked(pending, r, b, id, op) {}
  }

  lemma EnrolledOk(pending: Buffer, replicas: map<Id, Replica>, b: Book, id: Id, r: Replica, s: Snapshot, loaded: map<Id, nat>, markGen: nat)
    requires Ok(pending, replicas, b) && FileOk(replicas.Keys, b, s, loaded, markGen) && id !in replicas && (r.needsResync ==> r.resyncFrom > 0)
    ensures Ok(pending, replicas[id := r], Enrolled(pending, b, id, r, markGen))
    ensures FileOk(replicas.Keys + {id}, Enrolled(pending, b, id, r, markGen), s, loaded, markGen)
  {
    var b' := Enrolled(pending, b, id, r, markGen);
    forall i | i in replicas[id := r] && i !in b'.lost ensures TrackedFor(pending, replicas[id := r][i], b', i) {
      var q := replicas[id := r][i];
      assert TrackedFor(pending, q, b, i);
      forall o | (i, o) in b'.owed ensures Tracked(pending, q, b', i, o) { assert Tracked(pending, q, b, i, o); }
    }
    forall i | i in s.marks && Speaks(b', i, s.gen) ensures MarkOk(b', i, s.marks[i]) { assert MarkOk(b, i, s.marks[i]); }
    forall i | i in loaded && i !in replicas.Keys + {id} && i !in b'.lost ensures MarkOk(b', i, loaded[i]) { assert MarkOk(b, i, loaded[i]); }
  }

  /** An empty member: it holds nothing and is owed everything. */
  ghost function Reborn(b: Book, id: Id, markGen: nat): Book {
    b.(members := b.members + {id}, owed := b.owed + (set op | op in b.registered :: (id, op)),
       covered := (set d | d in b.covered && d.0 != id), gaps := (set d | d in b.gaps && d.0 != id),
       past := (set d | d in b.past && d.0 != id), lost := b.lost - {id},
       added := b.added[id := markGen], reborn := b.reborn[id := markGen])
  }

  /** What is recorded of an empty member. */
  function Emptied(r: Replica): Replica {
    r.(state := Failed, needsResync := true, resyncFrom := 1, freshMember := true)
  }

  lemma UpdateTwice(replicas: map<Id, Replica>, id: Id, r: Replica, r': Replica)
    ensures replicas[id := r][id := r'] == replicas[id := r'] && replicas[id := r][id] == r
  {
  }

  /** It does not matter how an emptied member was registered. */
  lemma RebornSame(b: Book, b': Book, id: Id, markGen: nat)
    requires b' == b.(members := b.members + {id}, added := b.added[id := markGen], lost := b'.lost, reborn := b'.reborn)
    requires b'.lost - {id} == b.lost - {id} && (b'.reborn == b.reborn || b'.reborn == b.reborn[id := markGen])
    ensures Reborn(b', id, markGen) == Reborn(b, id, markGen)
  {
    assert b'.reborn[id := markGen] == b.reborn[id := markGen];
    assert b'.members + {id} == b.members + {id};
  }

  lemma RebornTracks(pending: Buffer, replicas: map<Id, Replica>, b: Book, id: Id, r: Replica, markGen: nat)
    requires Ok(pending, replicas, b) && r.needsResync && r.resyncFrom == 1
    ensures Ok(pending, replicas[id := r], Reborn(b, id, markGen))
  {
    var b' := Reborn(b, id, markGen);
    forall i | i in replicas[id := r] && i !in b'.lost ensures TrackedFor(pending, replicas[id := r][i], b', i) {
      if i != id {
        assert TrackedFor(pending, replicas[i], b, i);
        forall o | (i, o) in b'.owed ensures Tracked(pending, replicas[i], b', i, o) { assert Tracked(pending, replicas[i], b, i, o); }
      }
    }
  }

  lemma RebornFile(ids: set<Id>, b: Book, id: Id, s: Snapshot, loaded: map<Id, nat>, markGen: nat)
    requires FileOk(ids, b, s, loaded, markGen)
    ensures FileOk(ids + {id}, Reborn(b, id, markGen), s, loaded, markGen)
  {
    var b' := Reborn(b, id, markGen);
    forall i | i in s.marks && Speaks(b', i, s.gen) ensures MarkOk(b', i, s.marks[i]) { assert MarkOk(b, i, s.marks[i]); }
    forall i | i in loaded && i !in ids + {id} && i !in b'.lost ensures MarkOk(b', i, loaded[i]) { assert MarkOk(b, i, loaded[i]); }
  }

  /** Writes some registered replica has not acked. */
  function Awaited(pending: Buffer, ids: set<Id>): Buffer {
    map n | n in pending && !(ids <= pending[n].acked) :: pending[n]
  }

  ghost function Left(b: Book, id: Id): Book {
    b.(members := b.members - {id}, owed := (set d | d in b.owed && d.0 != id), gaps := (set d | d in b.gaps && d.0 != id),
       past := (set d | d in b.past && d.0 != id), lost := b.lost - {id})
  }

  lemma LeftTracks(pending: Buffer, replicas: map<Id, Replica>, b: Book, id: Id)
    requires Ok(pending, replicas, b)
    ensures var left := replicas - {id};
      Ok(Awaited(pending, left.Keys), left, Left(b, id))
  {
    var left, b' := replicas - {id}, Left(b, id);
    var pending' := Awaited(pending, left.Keys);
    forall i | i in left && i !in b'.lost ensures TrackedFor(pending', left[i], b', i) {
      assert TrackedFor(pending, replicas[i], b, i);
      forall o | (i, o) in b'.owed ensures Tracked(pending', left[i], b', i, o) {
        assert Tracked(pending, replicas[i], b, i, o);
        if Retained(pending, i, o) { assert Retained(pending', i, o); }
      }
    }
  }

  lemma LeftFile(ids: set<Id>, b: Book, id: Id, s: Snapshot, loaded: map<Id, nat>, markGen: nat)
    requires FileOk(ids, b, s, loaded, markGen)
    ensures FileOk(ids - {id}, Left(b, id), s, loaded, markGen)
  {
    var b' := Left(b, id);
    forall i | i in s.marks && Speaks(b', i, s.gen) ensures MarkOk(b', i, s.marks[i]) { if i != id { assert MarkOk(b, i, s.marks[i]); } }
    forall i | i in loaded && i !in ids - {id} && i !in b'.lost ensures MarkOk(b', i, loaded[i]) { if i != id { assert MarkOk(b, i, loaded[i]); } }
  }

  /** The file claims of a replica what is not so. */
  ghost predicate Wrong(b: Book, id: Id, marks: map<Id, nat>) { id in marks && !MarkOk(b, id, marks[id]) }

  /** The history a restart begins with: what the file is wrong about is lost. */
  ghost function Reopened(b: Book, marks: map<Id, nat>): Book {
    b.(due := {}, added := map[], reborn := map[], gaps := {}, past := b.past + b.gaps, lost := b.lost + set id | id in marks && Wrong(b, id, marks))
  }

  /** The file is right about a replica it was written for after that last became empty. */
  lemma RightMarks(ids: set<Id>, b: Book, s: Snapshot)
    requires SnapshotOk(ids, b, s)
    ensures forall id :: Speaks(b, id, s.gen) ==> id !in Reopened(b, s.marks).lost
  {
    forall id | Speaks(b, id, s.gen) ensures !Wrong(b, id, s.marks) { if id in s.marks { assert MarkOk(b, id, s.marks[id]); } }
  }

  lemma ReopenedOk(b: Book, marks: map<Id, nat>)
    requires forall id :: id in marks ==> marks[id] <= b.clock
    ensures SnapshotOk({}, Reopened(b, marks), Snapshot(marks, 0)) && LoadedOk({}, Reopened(b, marks), marks)
    ensures LoadedOk({}, Reopened(b, marks), map[])
    ensures forall id :: id in Reopened(b, marks).lost <==> id in b.lost || Wrong(b, id, marks)
  {
    var b' := Reopened(b, marks);
    forall id | id in marks && id !in b'.lost ensures MarkOk(b', id, marks[id]) {
      assert !Wrong(b, id, marks);
      assert MarkOk(b, id, marks[id]);
    }
  }

  /** What a restart begins with satisfies the invariant. */
  lemma RestartedOk(pending: Buffer, replicas: map<Id, Replica>, b: Book, s: Snapshot, loaded: map<Id, nat>, markGen: nat, next: map<Id, nat>)
    requires Ok(pending, replicas, b) && FileOk(replicas.Keys, b, s, loaded, markGen) && (next == s.marks || next == map[])
    ensures Ok(map[], map[], Reopened(b, s.marks)) && FileOk({}, Reopened(b, s.marks), Snapshot(s.marks, 0), next, 0)
    ensures forall id :: id in Reopened(b, s.marks).lost <==> id in b.lost || Wrong(b, id, s.marks)
    ensures forall id :: Speaks(b, id, s.gen) ==> id !in Reopened(b, s.marks).lost
  {
    RightMarks(replicas.Keys, b, s);
    ReopenedOk(b, s.marks);
  }
}
