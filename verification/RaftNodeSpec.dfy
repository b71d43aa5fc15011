/** The value-level specification of one Raft server: what each handler does to
    its state.  `RaftNodeImpl.dfy` proves the in-place methods against these
    functions; the cluster model steps with them.

    The log here is the whole log, compacted prefix included; `snap` is the index
    of the newest snapshot, below which the server no longer stores entries. */
module RaftNodeSpec {
  import opened Basics
  import opened RaftLog

  datatype Role = Follower | Candidate | Leader

  /** A successful AppendEntries whose reply waits for an fsync. */
  datatype Waiter = Waiter(term: nat, target: nat, targetTerm: nat)

  /** One pass of the syncer: the log tail is captured, then the write queue is
      flushed, then the captured tail is marked durable.  The syncer remembers
      only the index and term of the captured tail; the log, and the position
      of the tail among the logs a crash may leave, are history. */
  datatype Sync = Idle | Captured(tail: Log, base: nat) | Flushed(tail: Log)

  /** `vers` lists the logs a crash may leave: what is on disk, then the log after
      each further record of the write queue; its last element is `log`. */
  datatype Node = Node(
    term: nat,
    vote: Option<Id>,
    role: Role,
    votes: set<Id>,
    log: Log,
    snap: nat,
    vers: seq<Log>,
    durable: nat,
    sync: Sync,
    commit: nat,
    applied: Log,
    matched: map<Id, nat>,
    waiters: set<Waiter>)

  function InitNode(): Node {
    Node(0, None, Follower, {}, [], 0, [[]], 0, Idle, 0, [], map[], {})
  }

  // ----- terms and votes

  datatype VoteArgs = VoteArgs(term: nat, candidate: Id, lastIndex: nat, lastTerm: nat)

  datatype VoteReply = VoteReply(term: nat, granted: bool)

  function BecomeFollower(n: Node, term: nat): Node {
    n.(term := term, vote := None, role := Follower)
  }

  /** The log ending in (`lastTerm`, `lastIndex`) is at least as up to date. */
  predicate UpToDate(log: Log, lastTerm: nat, lastIndex: nat) {
    if lastTerm != LastTerm(log) then lastTerm > LastTerm(log) else lastIndex >= |log|
  }

  function HandleRequestVote(n: Node, voters: set<Id>, a: VoteArgs): (Node, VoteReply) {
    if a.candidate !in voters || a.term < n.term then
      (n, VoteReply(n.term, false))
    else
      var n1 := if a.term > n.term then BecomeFollower(n, a.term) else n;
      if (n1.vote == None || n1.vote == Some(a.candidate)) && UpToDate(n1.log, a.lastTerm, a.lastIndex) then
        (n1.(vote := Some(a.candidate)), VoteReply(n1.term, true))
      else
        (n1, VoteReply(n1.term, false))
  }

  function StartElection(n: Node, self: Id): Node {
    n.(term := n.term + 1, vote := Some(self), role := Candidate, votes := {self})
  }

  /** Append one entry to the in-memory log and queue its record. */
  function AppendOwn(n: Node, kind: Kind, command: seq<Byte>): Node {
    var log' := n.log + [Entry(n.term, |n.log| + 1, kind, command)];
    n.(log := log', vers := n.vers + [log'])
  }

  /** A new leader forgets what it knew of its peers and appends a no-op. */
  function BecomeLeader(n: Node): Node {
    AppendOwn(n.(role := Leader, matched := map[]), Normal, [])
  }

  predicate QuorumSize(count: nat, voters: set<Id>) { count >= |voters| / 2 + 1 }

  // ----- AppendEntries

  datatype AppendArgs = AppendArgs(term: nat, prev: nat, prevTerm: nat, entries: Log, commit: nat)

  datatype Outcome =
    | Refused(term: nat, conflictIndex: nat, conflictTerm: nat)
    | Matched(term: nat, matchIndex: nat)
    | Parked(waiter: Waiter)

  /** The first of `entries` from position `k` on that the log does not already
      hold right after `prev`. */
  function FirstNew(log: Log, prev: nat, entries: Log, k: nat): (r: nat)
    requires k <= |entries|
    ensures k <= r <= |entries|
    ensures prev + k <= |log| ==> prev + r <= |log|
    decreases |entries| - k
  {
    if k < |entries| && prev + k < |log| && log[prev + k].term == entries[k].term
    then FirstNew(log, prev, entries, k + 1)
    else k
  }

  lemma {:induction false} FirstNewSpec(log: Log, prev: nat, entries: Log, k: nat)
    requires k <= |entries|
    ensures var r := FirstNew(log, prev, entries, k);
      && (forall j :: k <= j < r ==> prev + j < |log| && log[prev + j].term == entries[j].term)
      && (r < |entries| && prev + r < |log| ==> log[prev + r].term != entries[r].term)
    decreases |entries| - k
  {
    if k < |entries| && prev + k < |log| && log[prev + k].term == entries[k].term {
      FirstNewSpec(log, prev, entries, k + 1);
    }
  }

  /** The logs after each of the records `entries`, written on top of `base`. */
  function Versions(base: Log, entries: Log): (vs: seq<Log>)
    ensures |vs| == |entries|
  {
    seq(|entries|, j requires 0 <= j < |entries| => base + entries[..j + 1])
  }

  /** Overwrite everything after `at` with `entries`. */
  function Overwrite(n: Node, at: nat, entries: Log): Node
    requires at <= |n.log| && entries != []
  {
    n.(log := n.log[..at] + entries,
       vers := n.vers + Versions(n.log[..at], entries),
       durable := Min(n.durable, at))
  }

  /** First retained index of the run of equal terms that ends at `i`: the
      conflict hint of a rejected request. */
  function ConflictStart(log: Log, first: nat, i: nat): (c: nat)
    requires 0 < i <= |log|
    ensures c <= i && 0 < c
    decreases i
  {
    if i > first && i > 1 && TermAt(log, i - 1) == TermAt(log, i) then ConflictStart(log, first, i - 1) else i
  }

  /** `c` is the first index, from `first` on, of the run of equal terms that ends at `i`. */
  ghost predicate RunStart(log: Log, first: nat, i: nat, c: nat) {
    && 0 < c <= i && (first <= i ==> first <= c)
    && (forall j :: c <= j <= i ==> TermAt(log, j) == TermAt(log, i))
    && (c <= first || c == 1 || TermAt(log, c - 1) != TermAt(log, i))
  }

  lemma {:induction false} ConflictStartsRun(log: Log, first: nat, i: nat)
    requires 0 < i <= |log|
    ensures RunStart(log, first, i, ConflictStart(log, first, i))
    decreases i
  {
    if i > first && i > 1 && TermAt(log, i - 1) == TermAt(log, i) { ConflictStartsRun(log, first, i - 1); }
  }

  /** The log loses everything after `at`; the file does not change. */
  function CutAt(n: Node, at: nat): Node
    requires at <= |n.log|
  {
    n.(log := n.log[..at], durable := Min(n.durable, at))
  }

  /** Skip the entries already present and write the rest over what follows. */
  function TakeEntries(n: Node, prev: nat, entries: Log): Node
    requires prev <= |n.log|
  {
    var k := FirstNew(n.log, prev, entries, 0);
    if k == |entries| then n else Overwrite(n, prev + k, entries[k..])
  }

  /** Entries up to `target` are in the log: advance the commit index no further,
      and acknowledge what is durable, now or after the next fsync. */
  function Acknowledge(n: Node, target: nat, commit: nat, heartbeat: bool): (Node, Outcome) {
    var n1 := n.(commit := Max(n.commit, Min(commit, target)));
    if heartbeat then
      (n1, Matched(n1.term, Min(n1.durable, target)))
    else if n1.durable >= target then
      (n1, Matched(n1.term, target))
    else
      var w := Waiter(n1.term, target, TermAt(n1.log, target));
      (n1.(waiters := n1.waiters + {w}), Parked(w))
  }

  /** Receiver side once the request's covered prefix is dropped: consistency
      check, append, acknowledgement. */
  function AcceptEntries(n: Node, prev: nat, prevTerm: nat, entries: Log, commit: nat): (Node, Outcome) {
    if prev > |n.log| then
      (n, Refused(n.term, |n.log| + 1, 0))
    else if prev > 0 && TermAt(n.log, prev) != prevTerm then
      (n, Refused(n.term, ConflictStart(n.log, n.snap + 1, prev), TermAt(n.log, prev)))
    else
      Acknowledge(TakeEntries(n, prev, entries), prev + |entries|, commit, entries == [])
  }

  /** A request of the current or a later term makes the server a follower of it. */
  function Follow(n: Node, term: nat): Node {
    (if term > n.term then BecomeFollower(n, term) else n).(role := Follower)
  }

  /** What the snapshot covers of the request is dropped: it is committed. */
  function AcceptRequest(n: Node, a: AppendArgs): (Node, Outcome) {
    if a.prev < n.snap then
      var covered := n.snap - a.prev;
      if |a.entries| <= covered then
        (n, Matched(n.term, a.prev + |a.entries|))
      else
        AcceptEntries(n, n.snap, TermAt(n.log, n.snap), a.entries[covered..], a.commit)
    else
      AcceptEntries(n, a.prev, a.prevTerm, a.entries, a.commit)
  }

  function HandleAppendEntries(n: Node, a: AppendArgs): (Node, Outcome) {
    if a.term < n.term then (n, Refused(n.term, 0, 0)) else AcceptRequest(Follow(n, a.term), a)
  }

  // ----- durability

  function SyncBegin(n: Node): Node
    requires n.vers != []
  {
    n.(sync := Captured(n.log, |n.vers| - 1))
  }

  /** The records queued when the write began are on disk: no crash leaves a log
      older than version `d`, which is the captured tail or a later one. */
  function SyncFlush(n: Node, d: nat): Node
    requires n.sync.Captured? && n.sync.base <= d < |n.vers|
  {
    n.(vers := n.vers[d..], sync := Flushed(n.sync.tail))
  }

  /** Mark the captured tail durable, unless it left the log meanwhile. */
  function SyncEnd(n: Node): Node
    requires n.sync.Flushed?
  {
    var i := |n.sync.tail|;
    var n1 := n.(sync := Idle);
    if i <= n.durable || TermAt(n.log, i) != LastTerm(n.sync.tail) then n1 else n1.(durable := i)
  }

  datatype Verdict = Fail | Confirm | Wait

  function Decide(n: Node, w: Waiter): Verdict {
    if n.term != w.term then Fail
    else if w.target <= n.snap then Confirm
    else if TermAt(n.log, w.target) != w.targetTerm then Fail
    else if n.durable >= w.target then Confirm
    else Wait
  }

  // ----- commit

  function MatchedAt(n: Node, p: Id): nat { if p in n.matched then n.matched[p] else 0 }

  /** Voters known to hold index `k` durably: peers by their acknowledgements, the
      leader itself only up to its own fsync. */
  function Holders(n: Node, self: Id, voters: set<Id>, k: nat): set<Id> {
    set p | p in voters && (if p == self then n.durable >= k else MatchedAt(n, p) >= k)
  }

  predicate CanCommit(n: Node, self: Id, voters: set<Id>, k: nat) {
    && n.commit < k <= |n.log| && TermAt(n.log, k) == n.term
    && QuorumSize(|Holders(n, self, voters, k)|, voters)
  }

  // ----- apply, compaction, restart

  function Apply(n: Node, k: nat): Node
    requires |n.applied| <= k <= |n.log|
  {
    n.(applied := n.applied + n.log[|n.applied|..k])
  }

  /** Rewrite the log file to the in-memory log: everything is durable. */
  function Rewritten(n: Node): Node {
    n.(vers := [n.log], durable := |n.log|, sync := if n.sync.Captured? then Captured(n.sync.tail, 0) else n.sync)
  }

  /** Compact the log behind a snapshot of the state after index `k`. */
  function Capture(n: Node, k: nat): Node { Rewritten(n.(snap := k)) }

  /** The log behind a snapshot of `data`: the suffix that agrees with it is kept. */
  function InstalledLog(log: Log, data: Log): Log {
    if |data| < |log| && TermAt(log, |data|) == LastTerm(data) then data + log[|data|..] else data
  }

  /** Install a snapshot of the state after `data`. */
  function Install(n: Node, data: Log): Node {
    Rewritten(n.(log := InstalledLog(n.log, data), snap := |data|, commit := Max(n.commit, |data|), applied := data))
  }

  /** The state machine kept exactly `k` applied entries: the snapshot's, or as
      many as its own durable record says — trusted only if the term recorded with
      it is the one the reloaded log has there, or the log has none. */
  predicate RestartAt(n: Node, log: Log, k: nat) {
    && n.snap <= k <= |n.applied|
    && (k == n.snap || k > |log| || TermAt(log, k) == TermAt(n.applied, k))
  }

  function Restart(n: Node, log: Log, k: nat): Node
    requires k <= |n.applied|
  {
    Node(Max(n.term, LastTerm(log)), if LastTerm(log) > n.term then None else n.vote,
         Follower, {}, log, n.snap, [log], |log|, Idle, k, n.applied[..k], map[], {})
  }

  /** A log file that was not rewritten ends within the snapshot, or agrees with it. */
  predicate Agrees(log: Log, data: Log) { |log| <= |data| || TermAt(log, |data|) == LastTerm(data) }

  /** As for a restart, behind snapshot `data`. */
  predicate ReloadAt(n: Node, log: Log, data: Log, k: nat) {
    || k == |data|
    || (|data| < k <= |n.applied| && (k > |InstalledLog(log, data)| || TermAt(InstalledLog(log, data), k) == TermAt(n.applied, k)))
  }

  /** A restart with snapshot `data` in place and the log file `log` from before it. */
  function Reload(n: Node, log: Log, data: Log, k: nat): Node
    requires n.snap <= |n.applied| && ReloadAt(n, log, data, k)
  {
    var n' := Install(Restart(n, log, n.snap), data);
    if k == |data| then n' else n'.(commit := k, applied := n.applied[..k])
  }
}
