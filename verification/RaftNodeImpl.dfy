/** The server as the code keeps it: fields updated in place, a log that starts
    behind the newest snapshot.  Every method is proved to do to the whole log —
    compacted entries included — what `RaftNodeSpec` says. */
module RaftNodeImpl {
  import opened Basics
  import opened RaftLog
  import opened RaftNodeSpec
  import NodeEffects

  /** The records could not be queued: the log is left cut before the first of them. */
  ghost predicate Cut(n: Node, prev: nat, ents: Log, n': Node, o: Outcome) {
    prev <= |n.log| && n' == CutAt(n, prev + FirstNew(n.log, prev, ents, 0)) && o == Refused(n.term, 0, 0)
  }

  /** What comes of entries behind `prev`: what the model says, or, if there is something
      to queue and that fails, the cut. */
  ghost predicate Accepts(n: Node, prev: nat, prevTerm: nat, ents: Log, commit: nat, queued: bool, n': Node, o: Outcome) {
    if queued || prev > |n.log| || (prev > 0 && TermAt(n.log, prev) != prevTerm) || FirstNew(n.log, prev, ents, 0) == |ents|
    then (n', o) == AcceptEntries(n, prev, prevTerm, ents, commit)
    else Cut(n, prev, ents, n', o)
  }

  lemma RefusedAccepts(n: Node, prev: nat, prevTerm: nat, ents: Log, commit: nat, queued: bool, o: Outcome)
    requires !NodeEffects.Fits(n.log, prev, prevTerm) && (n, o) == AcceptEntries(n, prev, prevTerm, ents, commit)
    ensures Accepts(n, prev, prevTerm, ents, commit, queued, n, o)
  {}

  /** What comes of entries that fit behind `prev`. */
  ghost predicate Takes(n: Node, prev: nat, ents: Log, commit: nat, queued: bool, n': Node, o: Outcome)
    requires prev <= |n.log|
  {
    if queued || FirstNew(n.log, prev, ents, 0) == |ents|
    then (n', o) == Acknowledge(TakeEntries(n, prev, ents), prev + |ents|, commit, ents == [])
    else Cut(n, prev, ents, n', o)
  }

  lemma TakesCut(n: Node, prev: nat, ents: Log, commit: nat, n': Node)
    requires prev <= |n.log| && FirstNew(n.log, prev, ents, 0) != |ents| && n' == CutAt(n, prev + FirstNew(n.log, prev, ents, 0))
    ensures Takes(n, prev, ents, commit, false, n', Refused(n.term, 0, 0))
  {}

  lemma TakesAll(n: Node, prev: nat, ents: Log, commit: nat, queued: bool, n1: Node, n': Node, o: Outcome)
    requires prev <= |n.log| && (queued || FirstNew(n.log, prev, ents, 0) == |ents|) && n1 == TakeEntries(n, prev, ents)
    requires (n', o) == Acknowledge(n1, prev + |ents|, commit, ents == [])
    ensures Takes(n, prev, ents, commit, queued, n', o)
  {}

  lemma TakenAccepts(n: Node, prev: nat, prevTerm: nat, ents: Log, commit: nat, queued: bool, n': Node, o: Outcome)
    requires NodeEffects.Fits(n.log, prev, prevTerm) && Takes(n, prev, ents, commit, queued, n', o)
    ensures Accepts(n, prev, prevTerm, ents, commit, queued, n', o)
  {}

  ghost predicate AcceptsRequest(n: Node, a: AppendArgs, queued: bool, n': Node, o: Outcome) {
    if a.prev >= n.snap then Accepts(n, a.prev, a.prevTerm, a.entries, a.commit, queued, n', o)
    else if a.prev + |a.entries| <= n.snap then (n', o) == (n, Matched(n.term, a.prev + |a.entries|))
    else Accepts(n, n.snap, TermAt(n.log, n.snap), a.entries[n.snap - a.prev..], a.commit, queued, n', o)
  }

  /** Without a failure that is the model's step. */
  lemma QueuedAccepts(n: Node, a: AppendArgs, n': Node, o: Outcome)
    requires a.term >= n.term && AcceptsRequest(Follow(n, a.term), a, true, n', o)
    ensures (n', o) == HandleAppendEntries(n, a)
  {}

  /** What a decided waiter is answered. */
  datatype Answer = Answer(waiter: Waiter, success: bool)

  /** Of the first `i` parked replies, those that stay parked, in order. */
  function Undecided(n: Node, failed: bool, ws: seq<Waiter>, i: nat): seq<Waiter>
    requires i <= |ws|
  {
    if i == 0 then []
    else if !failed && Decide(n, ws[i - 1]).Wait? then Undecided(n, failed, ws, i - 1) + [ws[i - 1]]
    else Undecided(n, failed, ws, i - 1)
  }

  /** The others are answered, in order. */
  function Answers(n: Node, failed: bool, ws: seq<Waiter>, i: nat): seq<Answer>
    requires i <= |ws|
  {
    if i == 0 then []
    else if !failed && Decide(n, ws[i - 1]).Wait? then Answers(n, failed, ws, i - 1)
    else Answers(n, failed, ws, i - 1) + [Answer(ws[i - 1], !failed && Decide(n, ws[i - 1]).Confirm?)]
  }

  ghost function Waiters(out: seq<Answer>): seq<Waiter> {
    seq(|out|, j requires 0 <= j < |out| => out[j].waiter)
  }

  lemma WaitersSnoc(out: seq<Answer>, a: Answer)
    ensures Waiters(out + [a]) == Waiters(out) + [a.waiter]
  {}

  lemma CountSnoc(a: seq<Waiter>, b: seq<Waiter>, all: seq<Waiter>, w: Waiter)
    requires multiset(a) + multiset(b) == multiset(all)
    ensures multiset(a + [w]) + multiset(b) == multiset(all + [w]) == multiset(a) + multiset(b + [w])
  {}

  /** The answered and the kept replies together are `all`. */
  ghost predicate Parted(out: seq<Answer>, kept: seq<Waiter>, all: seq<Waiter>) {
    multiset(Waiters(out)) + multiset(kept) == multiset(all)
  }

  lemma PartedMore(out: seq<Answer>, kept: seq<Waiter>, all: seq<Waiter>, a: Answer)
    requires Parted(out, kept, all)
    ensures Parted(out + [a], kept, all + [a.waiter]) && Parted(out, kept + [a.waiter], all + [a.waiter])
  {
    CountSnoc(Waiters(out), kept, all, a.waiter);
    WaitersSnoc(out, a);
  }

  /** No parked reply is lost or answered twice. */
  lemma {:induction false} AnswersPartition(n: Node, failed: bool, ws: seq<Waiter>, i: nat, all: seq<Waiter>)
    requires i <= |ws| && all == ws[..i]
    ensures Parted(Answers(n, failed, ws, i), Undecided(n, failed, ws, i), all)
  {
    if i > 0 {
      var w, out, kept := ws[i - 1], Answers(n, failed, ws, i - 1), Undecided(n, failed, ws, i - 1);
      AnswersPartition(n, failed, ws, i - 1, ws[..i - 1]);
      PartedMore(out, kept, ws[..i - 1], Answer(w, !failed && Decide(n, w).Confirm?));
      assert all == ws[..i - 1] + [w];
    }
  }

  /** A reply is answered only once it is decided: success means that the term still
      runs and that a snapshot covers the entries, or they are still in the log and an fsync
      covers them.  What stays parked waits for that fsync. */
  lemma {:induction false} AnswersTruthful(n: Node, failed: bool, ws: seq<Waiter>, i: nat)
    requires i <= |ws|
    ensures forall a :: a in Answers(n, failed, ws, i) ==> var w := a.waiter;
      (a.success <==> && !failed && n.term == w.term
                      && (w.target <= n.snap || (TermAt(n.log, w.target) == w.targetTerm && w.target <= n.durable)))
    ensures forall a :: a in Answers(n, failed, ws, i) ==> var w := a.waiter;
      || failed || n.term != w.term || w.target <= n.snap || TermAt(n.log, w.target) != w.targetTerm || w.target <= n.durable
    ensures forall w :: w in Undecided(n, failed, ws, i) ==>
      && !failed && n.term == w.term && n.snap < w.target && TermAt(n.log, w.target) == w.targetTerm && n.durable < w.target
  {
    if i > 0 { AnswersTruthful(n, failed, ws, i - 1); }
  }

  /** Whether server `p` holds index `k` durably, as far as the leader knows. */
  predicate Holds(n: Node, self: Id, p: Id, k: nat) {
    if p == self then n.durable >= k else MatchedAt(n, p) >= k
  }

  /** How many of the first `i` servers hold index `k`. */
  function Count(n: Node, self: Id, servers: seq<Id>, k: nat, i: nat): nat
    requires i <= |servers|
  {
    if i == 0 then 0 else Count(n, self, servers, k, i - 1) + (if Holds(n, self, servers[i - 1], k) then 1 else 0)
  }

  ghost function Elements<T>(s: seq<T>): set<T> { set x | x in s }

  ghost function FirstOf(servers: seq<Id>, i: nat): set<Id>
    requires i <= |servers|
  {
    set j | 0 <= j < i :: servers[j]
  }

  lemma HoldersSnoc(n: Node, self: Id, voters: set<Id>, p: Id, k: nat)
    requires p !in voters
    ensures |Holders(n, self, voters + {p}, k)| == |Holders(n, self, voters, k)| + (if Holds(n, self, p, k) then 1 else 0)
  {
    var h := Holders(n, self, voters, k);
    if Holds(n, self, p, k) {
      assert Holders(n, self, voters + {p}, k) == h + {p};
    } else {
      assert Holders(n, self, voters + {p}, k) == h;
    }
  }

  /** Counting over the member list counts the holders as a set. */
  lemma {:induction false} CountIsHolders(n: Node, self: Id, servers: seq<Id>, k: nat, i: nat)
    requires NoRepeats(servers) && i <= |servers|
    ensures Count(n, self, servers, k, i) == |Holders(n, self, FirstOf(servers, i), k)|
  {
    if i == 0 {
      assert Holders(n, self, FirstOf(servers, 0), k) == {};
    } else {
      CountIsHolders(n, self, servers, k, i - 1);
      assert FirstOf(servers, i) == FirstOf(servers, i - 1) + {servers[i - 1]};
      HoldersSnoc(n, self, FirstOf(servers, i - 1), servers[i - 1], k);
    }
  }

  class RaftNode {
    const id: Id
    var currentTerm: nat
    var votedFor: Id
    var role: Role
    var log: Log
    var lastIncludedIndex: nat
    var lastIncludedTerm: nat
    var durableIndex: nat
    var commitIndex: nat
    var lastApplied: nat
    var matchIndex: map<Id, nat>
    var aeWaiters: seq<Waiter>

    // The compacted entries, the logs a crash may leave, the syncer's captured
    // tail, the votes counted and the entries applied: not fields of the code.
    ghost var compacted: Log
    ghost var vers: seq<Log>
    ghost var sync: Sync
    ghost var votes: set<Id>
    ghost var applied: Log

    /** The retained log follows the snapshot. */
    ghost predicate LogValid()
      reads `compacted, `log, `lastIncludedIndex, `lastIncludedTerm
    {
      && |compacted| == lastIncludedIndex && lastIncludedTerm == LastTerm(compacted)
      && Follows(log, lastIncludedIndex)
    }

    ghost predicate Valid()
      reads this
    {
      && LogValid()
      && lastIncludedIndex <= durableIndex <= lastIncludedIndex + |log|
      && lastIncludedIndex <= lastApplied <= commitIndex && |applied| == lastApplied
    }

    /** The uncompacted log. */
    ghost function Full(): Log
      reads `compacted, `log
    {
      compacted + log
    }

    ghost function Abs(): Node
      reads this
    {
      Node(currentTerm, if votedFor == "" then None else Some(votedFor), role, votes, Full(), lastIncludedIndex,
           vers, durableIndex, sync, commitIndex, applied, matchIndex, Elements(aeWaiters))
    }

    constructor (id: Id)
      ensures Valid() && this.id == id && Abs() == InitNode()
    {
      this.id := id;
      currentTerm, votedFor, role, log := 0, "", Follower, [];
      lastIncludedIndex, lastIncludedTerm, durableIndex, commitIndex, lastApplied := 0, 0, 0, 0, 0;
      matchIndex, aeWaiters := map[], [];
      compacted, vers, sync, votes, applied := [], [[]], Idle, {}, [];
    }

    // ----- the log behind its snapshot head

    function LogFirstIndex(): (i: nat)
      requires LogValid()
      reads `compacted, `log, `lastIncludedIndex, `lastIncludedTerm
      ensures i == lastIncludedIndex + 1
    {
      if |log| == 0 then lastIncludedIndex + 1 else log[0].index
    }

    function LastLogIndex(): (i: nat)
      requires LogValid()
      reads `compacted, `log, `lastIncludedIndex, `lastIncludedTerm
      ensures i == |Full()|
    {
      if |log| == 0 then lastIncludedIndex else log[|log| - 1].index
    }

    function LastLogTerm(): (t: nat)
      requires LogValid()
      reads `compacted, `log, `lastIncludedIndex, `lastIncludedTerm
      ensures t == LastTerm(Full())
    {
      if |log| == 0 then lastIncludedTerm else log[|log| - 1].term
    }

    /** From the snapshot point on, terms are those of the uncompacted log. */
    function LogTerm(idx: nat): (t: nat)
      requires LogValid()
      reads `compacted, `log, `lastIncludedIndex, `lastIncludedTerm
      ensures lastIncludedIndex <= idx ==> t == TermAt(Full(), idx)
      ensures idx < lastIncludedIndex ==> t == 0
    {
      if idx == 0 then 0
      else if idx == lastIncludedIndex then lastIncludedTerm
      else if |log| == 0 then 0
      else if idx < log[0].index || idx > LastLogIndex() then 0
      else log[idx - log[0].index].term
    }

    function EntryAt(idx: nat): (e: Option<Entry>)
      requires LogValid()
      reads `compacted, `log, `lastIncludedIndex, `lastIncludedTerm
      ensures e.Some? <==> lastIncludedIndex < idx <= |Full()|
      ensures e.Some? ==> e.value == Full()[idx - 1]
    {
      if |log| == 0 then None
      else if idx < log[0].index || idx > LastLogIndex() then None
      else Some(log[idx - log[0].index])
    }

    /** Entries from `idx` on, as far as they are retained. */
    function EntriesFrom(idx: nat): (es: Log)
      requires LogValid()
      reads `compacted, `log, `lastIncludedIndex, `lastIncludedTerm
      ensures |Full()| < idx ==> es == []
      ensures lastIncludedIndex < idx <= |Full()| ==> es == Full()[idx - 1..]
      ensures idx <= lastIncludedIndex ==> es == Full()[lastIncludedIndex..]
    {
      if |log| == 0 || idx > LastLogIndex() then []
      else
        var i := if idx < log[0].index then log[0].index else idx;
        log[i - log[0].index..]
    }

    predicate LogUpToDate(lastTerm: nat, lastIdx: nat)
      requires LogValid()
      reads `compacted, `log, `lastIncludedIndex, `lastIncludedTerm
    {
      if lastTerm != LastLogTerm() then lastTerm > LastLogTerm() else lastIdx >= LastLogIndex()
    }

    // ----- votes

    method BecomeFollower(term: nat)
      requires Valid()
      modifies this
      ensures Valid() && Abs() == RaftNodeSpec.BecomeFollower(old(Abs()), term)
      ensures compacted == old(compacted) && log == old(log) && aeWaiters == old(aeWaiters)
    {
      currentTerm, votedFor, role := term, "", Follower;
    }

    /** `saved1` and `saved2` say whether raft_meta could be written: for the new
        term, and for the vote. */
    method HandleRequestVote(voters: set<Id>, args: VoteArgs, saved1: bool, saved2: bool) returns (reply: VoteReply)
      requires Valid() && "" !in voters
      modifies this
      ensures Valid() && old(currentTerm) <= currentTerm
      ensures saved1 && saved2 ==> (Abs(), reply) == RaftNodeSpec.HandleRequestVote(old(Abs()), voters, args)
      ensures saved1 && saved2 ==>
        (reply.granted <==>
           && args.candidate in voters && args.term >= old(currentTerm)
           && (args.term > old(currentTerm) || old(votedFor) == "" || old(votedFor) == args.candidate)
           && (args.lastTerm > LastTerm(old(Full())) || (args.lastTerm == LastTerm(old(Full())) && args.lastIndex >= |old(Full())|)))
      ensures reply.granted ==> saved2 && votedFor == args.candidate && currentTerm == args.term
      ensures !saved1 && args.candidate in voters && args.term > old(currentTerm) ==>
        Abs() == RaftNodeSpec.BecomeFollower(old(Abs()), args.term) && reply == VoteReply(old(currentTerm), false)
      ensures saved1 && !saved2 && args.candidate in voters && args.term >= old(currentTerm) ==>
        && Abs() == (if args.term > old(currentTerm) then RaftNodeSpec.BecomeFollower(old(Abs()), args.term) else old(Abs()))
        && reply == VoteReply(args.term, false)
    {
      reply := VoteReply(currentTerm, false);
      if args.candidate !in voters { return; }
      if args.term < currentTerm { return; }
      if args.term > currentTerm {
        BecomeFollower(args.term);
        if !saved1 { return; }
      }
      var canVote := votedFor == "" || votedFor == args.candidate;
      if canVote && LogUpToDate(args.lastTerm, args.lastIndex) {
        var prev := votedFor;
        votedFor := args.candidate;
        if !saved2 { votedFor := prev; } else { reply := reply.(granted := true); }
      }
      reply := reply.(term := currentTerm);
    }

    /** Campaign in the next term, once term and own vote are on disk. */
    method StartElection(saved: bool) returns (campaigns: bool)
      requires Valid() && id != "" && role != Leader
      modifies this
      ensures Valid() && campaigns == saved
      ensures saved ==> Abs() == RaftNodeSpec.StartElection(old(Abs()), id)
      ensures !saved ==> Abs() == old(Abs()).(term := old(currentTerm) + 1, vote := Some(id))
    {
      currentTerm, votedFor := currentTerm + 1, id;
      campaigns := saved;
      if saved {
        role := Candidate;
        votes := {id};
      }
    }

    method BecomeLeader()
      requires Valid()
      modifies this
      ensures Valid() && Abs() == RaftNodeSpec.BecomeLeader(old(Abs()))
    {
      role := Leader;
      matchIndex := map[];
      AppendOwn(Normal, []);
    }

    /** A leader appends an entry and queues its record; nothing is fsynced. */
    method AppendOwn(kind: Kind, command: seq<Byte>)
      requires Valid()
      modifies this
      ensures Valid() && Abs() == RaftNodeSpec.AppendOwn(old(Abs()), kind, command)
    {
      ghost var full := Full();
      log := log + [Entry(currentTerm, LastLogIndex() + 1, kind, command)];
      assert Full() == full + [Entry(currentTerm, |full| + 1, kind, command)];
      vers := vers + [Full()];
    }

    // ----- AppendEntries

    /** First retained index of the run of equal terms that ends at `prev`. */
    method ConflictIndex(prev: nat) returns (idx: nat)
      requires Valid() && lastIncludedIndex <= prev <= |Full()| && 0 < prev
      ensures idx == ConflictStart(Full(), lastIncludedIndex + 1, prev)
      ensures RunStart(Full(), lastIncludedIndex + 1, prev, idx)
    {
      ConflictStartsRun(Full(), lastIncludedIndex + 1, prev);
      idx := prev;
      var term := LogTerm(prev);
      var first := LogFirstIndex();
      while idx > first && LogTerm(idx - 1) == term
        invariant lastIncludedIndex <= idx <= prev && 0 < idx && (idx < first ==> idx == prev)
        invariant TermAt(Full(), idx) == term
        invariant ConflictStart(Full(), lastIncludedIndex + 1, idx) == ConflictStart(Full(), lastIncludedIndex + 1, prev)
      {
        idx := idx - 1;
      }
    }

    /** How many of the entries the log holds already, in place. */
    method Known(prev: nat, ents: Log) returns (i: nat)
      requires Valid() && lastIncludedIndex <= prev <= |Full()|
      ensures i == FirstNew(Full(), prev, ents, 0)
    {
      i := 0;
      while i < |ents| && prev + i + 1 <= LastLogIndex() && LogTerm(prev + i + 1) == ents[i].term
        invariant i <= |ents| && prev + i <= |Full()| && FirstNew(Full(), prev, ents, 0) == FirstNew(Full(), prev, ents, i)
      {
        i := i + 1;
      }
    }

    /** Skip what the log holds, cut a conflicting suffix, append and queue the
        rest.  `queued` says whether the store took the records. */
    method TakeEntries(prev: nat, ents: Log, queued: bool) returns (ok: bool)
      requires Valid() && lastIncludedIndex <= prev <= |Full()| && Follows(ents, prev)
      modifies this`log, this`durableIndex, this`vers
      ensures Valid() && ok == (queued || FirstNew(old(Full()), prev, ents, 0) == |ents|)
      ensures ok ==> Abs() == RaftNodeSpec.TakeEntries(old(Abs()), prev, ents)
      ensures !ok ==> Abs() == CutAt(old(Abs()), prev + FirstNew(old(Full()), prev, ents, 0))
    {
      var i := Known(prev, ents);
      ok := true;
      if i < |ents| { ok := AppendFrom(prev + i + 1, ents[i..], queued); }
    }

    method AppendFrom(localIdx: nat, newEntries: Log, queued: bool) returns (ok: bool)
      requires Valid() && lastIncludedIndex < localIdx <= |Full()| + 1 && newEntries != []
      requires Follows(newEntries, localIdx - 1)
      modifies `log, `durableIndex, `vers
      ensures Valid() && ok == queued
      ensures ok ==> Abs() == Overwrite(old(Abs()), localIdx - 1, newEntries)
      ensures !ok ==> Abs() == CutAt(old(Abs()), localIdx - 1)
    {
      CutTail(localIdx);
      ok := queued;
      if queued {
        vers := vers + Versions(Full(), newEntries);
        log := log + newEntries;
        assert Full() == old(Full())[..localIdx - 1] + newEntries;
      }
    }

    /** Drop the entries from `localIdx` on; what is reused is not durable. */
    method CutTail(localIdx: nat)
      requires Valid() && lastIncludedIndex < localIdx <= |Full()| + 1
      modifies `log, `durableIndex
      ensures Valid() && Full() == old(Full())[..localIdx - 1] && durableIndex == Min(old(durableIndex), localIdx - 1)
    {
      ghost var full := Full();
      if localIdx <= LastLogIndex() {
        log := log[..localIdx - LogFirstIndex()];
        if durableIndex >= localIdx { durableIndex := localIdx - 1; }
      }
      assert Full() == full[..localIdx - 1];
    }

    /** The commit index moves no further than the request verified. */
    method AdvanceCommit(leaderCommit: nat, target: nat)
      requires Valid()
      modifies this`commitIndex
      ensures Valid() && commitIndex == Max(old(commitIndex), Min(leaderCommit, target))
    {
      if leaderCommit > commitIndex {
        var newCommit := leaderCommit;
        if newCommit > target { newCommit := target; }
        if newCommit > commitIndex { commitIndex := newCommit; }
      }
    }

    method Reply(target: nat, leaderCommit: nat, heartbeat: bool) returns (o: Outcome)
      requires Valid() && lastIncludedIndex <= target
      modifies this`commitIndex, this`aeWaiters
      ensures Valid() && (Abs(), o) == Acknowledge(old(Abs()), target, leaderCommit, heartbeat)
      ensures commitIndex == Max(old(commitIndex), Min(leaderCommit, target))
      ensures heartbeat || target <= durableIndex ==> o == Matched(currentTerm, Min(durableIndex, target)) && aeWaiters == old(aeWaiters)
      ensures !heartbeat && durableIndex < target ==>
        var w := Waiter(currentTerm, target, TermAt(Full(), target)); o == Parked(w) && aeWaiters == old(aeWaiters) + [w]
    {
      AdvanceCommit(leaderCommit, target);
      if heartbeat {
        o := Matched(currentTerm, if durableIndex < target then durableIndex else target);
      } else if durableIndex >= target {
        o := Matched(currentTerm, target);
      } else {
        var w := Waiter(currentTerm, target, LogTerm(target));
        aeWaiters := aeWaiters + [w];
        assert Elements(aeWaiters) == Elements(old(aeWaiters)) + {w};
        o := Parked(w);
      }
    }

    /** The consistency check: a refusal, or nothing against the request. */
    method Check(prev: nat, prevTerm: nat) returns (o: Option<Outcome>)
      requires Valid() && lastIncludedIndex <= prev
      ensures o.Some? <==> !NodeEffects.Fits(Abs().log, prev, prevTerm)
      ensures forall ents, commit :: o.Some? ==> (Abs(), o.value) == AcceptEntries(Abs(), prev, prevTerm, ents, commit)
    {
      o := None;
      if prev > 0 {
        if prev > LastLogIndex() {
          return Some(Refused(currentTerm, LastLogIndex() + 1, 0));
        }
        if LogTerm(prev) != prevTerm {
          var idx := ConflictIndex(prev);
          return Some(Refused(currentTerm, idx, LogTerm(prev)));
        }
      }
    }

    /** The request cut to what follows the snapshot, checked and taken. */
    method Accept(prev: nat, prevTerm: nat, ents: Log, leaderCommit: nat, queued: bool) returns (o: Outcome)
      requires Valid() && lastIncludedIndex <= prev && Follows(ents, prev)
      modifies this
      ensures Valid() && Accepts(old(Abs()), prev, prevTerm, ents, leaderCommit, queued, Abs(), o)
    {
      ghost var n := Abs();
      var refusal := Check(prev, prevTerm);
      if refusal.Some? {
        o := refusal.value;
        RefusedAccepts(n, prev, prevTerm, ents, leaderCommit, queued, o);
        return;
      }
      o := Take(prev, ents, leaderCommit, queued);
      TakenAccepts(n, prev, prevTerm, ents, leaderCommit, queued, Abs(), o);
    }

    method Take(prev: nat, ents: Log, leaderCommit: nat, queued: bool) returns (o: Outcome)
      requires Valid() && lastIncludedIndex <= prev <= |Full()| && Follows(ents, prev)
      modifies this
      ensures Valid() && Takes(old(Abs()), prev, ents, leaderCommit, queued, Abs(), o)
    {
      ghost var n := Abs();
      var ok := TakeEntries(prev, ents, queued);
      if ok {
        o := Taken(prev, ents, leaderCommit, queued, n);
      } else {
        TakesCut(n, prev, ents, leaderCommit, Abs());
        o := Refused(currentTerm, 0, 0);
      }
    }

    /** The entries are in the log. */
    method Taken(prev: nat, ents: Log, leaderCommit: nat, ghost queued: bool, ghost n: Node) returns (o: Outcome)
      requires Valid() && lastIncludedIndex <= prev <= |n.log| && (queued || FirstNew(n.log, prev, ents, 0) == |ents|)
      requires Abs() == RaftNodeSpec.TakeEntries(n, prev, ents)
      modifies this`commitIndex, this`aeWaiters
      ensures Valid() && Takes(n, prev, ents, leaderCommit, queued, Abs(), o)
    {
      ghost var n1 := Abs();
      o := Reply(prev + |ents|, leaderCommit, |ents| == 0);
      assert (|ents| == 0) == (ents == []);
      TakesAll(n, prev, ents, leaderCommit, queued, n1, Abs(), o);
    }

    /** Drop what the snapshot covers of the request and take the rest. */
    method AcceptCut(args: AppendArgs, queued: bool) returns (o: Outcome)
      requires Valid() && Follows(args.entries, args.prev)
      modifies this
      ensures Valid() && AcceptsRequest(old(Abs()), args, queued, Abs(), o)
    {
      var prev, prevTerm, ents := args.prev, args.prevTerm, args.entries;
      if prev < lastIncludedIndex {
        var covered := lastIncludedIndex - prev;
        if |ents| <= covered { return Matched(currentTerm, prev + |ents|); }
        ents := ents[covered..];
        prev, prevTerm := lastIncludedIndex, lastIncludedTerm;
        assert lastIncludedTerm == TermAt(Full(), lastIncludedIndex);
      }
      o := Accept(prev, prevTerm, ents, args.commit, queued);
    }

    /** Become or stay a follower of the leader of `term`, once the term is saved. */
    method FollowLeader(term: nat, saved: bool) returns (ok: bool)
      requires Valid() && currentTerm <= term
      modifies this
      ensures Valid() && ok == (saved || term == old(currentTerm)) && log == old(log) && lastIncludedIndex == old(lastIncludedIndex)
      ensures Abs() == if ok then Follow(old(Abs()), term) else RaftNodeSpec.BecomeFollower(old(Abs()), term)
    {
      if term > currentTerm {
        BecomeFollower(term);
        if !saved { return false; }
      }
      role := Follower;
      return true;
    }

    /** AppendEntries, receiver side.  A failed write of the new term or of the
        records is answered like a refusal, and nothing is acknowledged. */
    method AppendEntries(args: AppendArgs, saved: bool, queued: bool) returns (o: Outcome)
      requires Valid() && Follows(args.entries, args.prev)
      modifies this
      ensures Valid() && old(currentTerm) <= currentTerm
      ensures if args.term < old(currentTerm) then (Abs(), o) == (old(Abs()), Refused(old(currentTerm), 0, 0))
              else if args.term > old(currentTerm) && !saved then
                (Abs(), o) == (RaftNodeSpec.BecomeFollower(old(Abs()), args.term), Refused(old(currentTerm), 0, 0))
              else AcceptsRequest(Follow(old(Abs()), args.term), args, queued, Abs(), o)
    {
      var term := currentTerm;
      if args.term < term { return Refused(term, 0, 0); }
      var ok := FollowLeader(args.term, saved);
      if !ok { return Refused(term, 0, 0); }
      o := AcceptCut(args, queued);
    }

    // ----- durability and commit

    /** The highest index of the current term that a majority holds durably
        becomes committed; with none, nothing changes. */
    method MaybeAdvanceCommit(servers: seq<Id>)
      requires Valid() && NoRepeats(servers)
      modifies this`commitIndex
      ensures Valid()
      ensures commitIndex == old(commitIndex) || CanCommit(old(Abs()), id, Elements(servers), commitIndex)
      ensures forall k: nat :: CanCommit(old(Abs()), id, Elements(servers), k) ==> k <= commitIndex
    {
      ghost var n0 := Abs();
      CountDistinct(servers);
      assert FirstOf(servers, |servers|) == Elements(servers);
      var n := LastLogIndex();
      while n > commitIndex
        invariant commitIndex == old(commitIndex) && n <= |Full()|
        invariant forall k: nat :: n < k && CanCommit(n0, id, Elements(servers), k) ==> k <= commitIndex
      {
        if LogTerm(n) != currentTerm {
          n := n - 1;
          continue;
        }
        var count := 0;
        for i := 0 to |servers|
          invariant count == Count(n0, id, servers, n, i)
        {
          var s := servers[i];
          if s == id {
            if durableIndex >= n { count := count + 1; }
          } else if (if s in matchIndex then matchIndex[s] else 0) >= n {
            count := count + 1;
          }
        }
        CountIsHolders(n0, id, servers, n, |servers|);
        if count >= |servers| / 2 + 1 {
          commitIndex := n;
          break;
        }
        n := n - 1;
      }
    }

    /** The syncer's flush is done: mark the captured tail durable if the entry at
        its end is still the one captured. */
    method MarkDurable(idx: nat, term: nat, servers: seq<Id>)
      requires Valid() && sync.Flushed? && idx == |sync.tail| && term == LastTerm(sync.tail) && NoRepeats(servers)
      requires idx > 0 ==> term > 0
      modifies this
      ensures Valid()
      ensures Abs() == SyncEnd(old(Abs())).(commit := commitIndex)
      ensures commitIndex == old(commitIndex) || CanCommit(SyncEnd(old(Abs())), id, Elements(servers), commitIndex)
      ensures durableIndex == if idx > old(durableIndex) && TermAt(Full(), idx) == term then idx else old(durableIndex)
      ensures role == Leader && durableIndex > old(durableIndex) ==>
        forall k: nat :: CanCommit(SyncEnd(old(Abs())), id, Elements(servers), k) ==> k <= commitIndex
    {
      ghost var n := SyncEnd(Abs());
      sync := Idle;
      if idx <= durableIndex || LogTerm(idx) != term { return; }
      durableIndex := idx;
      assert Abs() == n;
      if role == Leader { MaybeAdvanceCommit(servers); }
    }

    /** A parked reply fails when the store failed or the term moved on, succeeds
        when a snapshot or an fsync covers its entries, and fails when those left
        the log. */
    method DecideWaiter(failed: bool, w: Waiter) returns (decided: bool, ok: bool)
      requires Valid()
      ensures decided == (failed || !Decide(Abs(), w).Wait?)
      ensures ok == (!failed && Decide(Abs(), w).Confirm?)
      ensures !decided <==>
        && !failed && currentTerm == w.term && lastIncludedIndex < w.target
        && TermAt(Full(), w.target) == w.targetTerm && durableIndex < w.target
      ensures ok <==>
        && !failed && currentTerm == w.term
        && (w.target <= lastIncludedIndex || (TermAt(Full(), w.target) == w.targetTerm && w.target <= durableIndex))
    {
      if failed || currentTerm != w.term { return true, false; }
      if w.target <= lastIncludedIndex { return true, true; }
      if LogTerm(w.target) != w.targetTerm { return true, false; }
      if durableIndex >= w.target { return true, true; }
      return false, false;
    }

    /** Answer every parked reply that is decided; the rest stay parked. */
    method TakeDecidedWaiters(failed: bool) returns (out: seq<Answer>)
      requires Valid()
      modifies this`aeWaiters
      ensures Valid()
      ensures aeWaiters == Undecided(old(Abs()), failed, old(aeWaiters), |old(aeWaiters)|)
      ensures out == Answers(old(Abs()), failed, old(aeWaiters), |old(aeWaiters)|)
      ensures multiset(Waiters(out)) + multiset(aeWaiters) == multiset(old(aeWaiters))
      ensures forall w :: w in aeWaiters ==>
        && !failed && currentTerm == w.term && lastIncludedIndex < w.target
        && TermAt(Full(), w.target) == w.targetTerm && durableIndex < w.target
      ensures forall a :: a in out ==> var w := a.waiter;
        (a.success <==> && !failed && currentTerm == w.term
                        && (w.target <= lastIncludedIndex || (TermAt(Full(), w.target) == w.targetTerm && w.target <= durableIndex)))
    {
      ghost var n0 := Abs();
      var ws := aeWaiters;
      var kept: seq<Waiter> := [];
      out := [];
      for i := 0 to |ws|
        invariant kept == Undecided(n0, failed, ws, i) && out == Answers(n0, failed, ws, i)
      {
        var decided, ok := DecideWaiter(failed, ws[i]);
        if decided { out := out + [Answer(ws[i], ok)]; } else { kept := kept + [ws[i]]; }
      }
      aeWaiters := kept;
      AnswersTruthful(n0, failed, ws, |ws|);
      assert ws[..|ws|] == ws;
      AnswersPartition(n0, failed, ws, |ws|, ws);
    }

    // ----- compaction

    /** Replace the log file by the in-memory log: all of it is durable. */
    method RewriteLog()
      requires LogValid()
      modifies `durableIndex, `vers, `sync
      ensures durableIndex == |Full()| && vers == [Full()]
      ensures sync == if old(sync).Captured? then Captured(old(sync).tail, 0) else old(sync)
    {
      durableIndex := LastLogIndex();
      vers := [Full()];
      if sync.Captured? { sync := Captured(sync.tail, 0); }
    }

    method CutHead(idx: nat, term: nat)
      requires LogValid() && lastIncludedIndex < idx <= |Full()| && term == TermAt(Full(), idx)
      modifies this`log, this`lastIncludedIndex, this`lastIncludedTerm, this`compacted
      ensures LogValid() && Full() == old(Full()) && lastIncludedIndex == idx
    {
      ghost var full := Full();
      var first := LogFirstIndex();
      if idx >= first {
        var cut := idx - first + 1;
        if cut >= |log| { log := []; } else { log := log[cut..]; }
      }
      lastIncludedIndex, lastIncludedTerm := idx, term;
      compacted := full[..idx];
      assert Full() == full;
    }

    /** Cut the log behind a snapshot of the applied state at `idx`. */
    method TruncatePrefix(idx: nat, term: nat)
      requires Valid() && lastIncludedIndex < idx <= lastApplied && idx <= |Full()| && term == TermAt(Full(), idx)
      modifies this
      ensures Valid() && Full() == old(Full()) && Abs() == Capture(old(Abs()), idx)
    {
      CutHead(idx, term);
      RewriteLog();
    }

    /** The snapshot becomes the head of the log: the suffix that agrees with it is
        kept, anything else dropped. */
    method ReplaceHead(idx: nat, term: nat, ghost data: Log)
      requires LogValid() && idx == |data| && term == LastTerm(data) && data != [] && lastIncludedIndex < idx
      modifies this`log, this`lastIncludedIndex, this`lastIncludedTerm, this`compacted
      ensures LogValid() && compacted == data && lastIncludedIndex == idx
      ensures Full() == InstalledLog(old(Full()), data)
    {
      if idx < LastLogIndex() && LogTerm(idx) == term { log := EntriesFrom(idx + 1); } else { log := []; }
      assert data + log == InstalledLog(old(Full()), data);
      lastIncludedIndex, lastIncludedTerm := idx, term;
      compacted := data;
    }

    /** Take over a snapshot of the state after `data`, unless it is stale. */
    method InstallSnapshot(idx: nat, term: nat, ghost data: Log) returns (installed: bool)
      requires Valid() && idx == |data| && term == LastTerm(data) && data != []
      modifies this
      ensures Valid() && installed == (old(lastIncludedIndex) < idx && old(lastApplied) < idx)
      ensures installed ==> Abs() == Install(old(Abs()), data)
      ensures !installed ==> Abs() == old(Abs())
    {
      if idx <= lastIncludedIndex || idx <= lastApplied { return false; }
      Adopt(idx, term, data);
      return true;
    }

    method Adopt(idx: nat, term: nat, ghost data: Log)
      requires Valid() && idx == |data| && term == LastTerm(data) && lastIncludedIndex < idx && lastApplied < idx
      modifies this
      ensures Valid() && Abs() == Install(old(Abs()), data)
    {
      ReplaceHead(idx, term, data);
      AdoptState(idx, data);
    }

    /** The state machine and the log file follow the snapshot. */
    method AdoptState(idx: nat, ghost data: Log)
      requires LogValid() && idx == |data| == lastIncludedIndex
      modifies `commitIndex, `lastApplied, `applied, `durableIndex, `vers, `sync
      ensures Valid() && commitIndex == Max(old(commitIndex), idx) && applied == data
      ensures durableIndex == |Full()| && vers == [Full()]
      ensures sync == if old(sync).Captured? then Captured(old(sync).tail, 0) else old(sync)
    {
      commitIndex, lastApplied, applied := if commitIndex < idx then idx else commitIndex, idx, data;
      RewriteLog();
    }
  }

  // ----- the back-off of a rejected leader

  /** A consistency-check rejection hints at an index no larger than the rejected
      one, and never at 0. */
  lemma HintIsLower(n: Node, prev: nat, prevTerm: nat, entries: Log, commit: nat)
    ensures var o := AcceptEntries(n, prev, prevTerm, entries, commit).1;
      o.Refused? ==> 0 < o.conflictIndex <= prev
  {}

  /** The leader's nextIndex after a rejected request that followed index `prev`. */
  method BackOff(prev: nat, conflictIndex: nat) returns (next: nat)
    ensures next >= 1
    ensures 0 < conflictIndex <= prev ==> next == conflictIndex && next < prev + 1
    ensures conflictIndex == 0 && 0 < prev ==> next == prev
  {
    next := prev;
    if conflictIndex > 0 { next := conflictIndex; }
    if next < 1 { next := 1; }
  }
}
