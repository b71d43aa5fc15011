/** A Raft cluster with a fixed voter set as a state machine.

    Messages are never removed, so a message may be delivered late, out of order,
    more than once or never.  Every server may crash at any time: it restarts from
    any log its disk may hold.  `llog`, `elect`, `cand`, `acks`, `commits` and
    `committed` are history: no server reads them. */
module Cluster {
  import opened Basics
  import opened RaftLog
  import opened RaftNodeSpec

  datatype Msg =
    | VoteReq(vote: VoteArgs)
    | VoteRsp(term: nat, voter: Id, candidate: Id)
    | AppendReq(append: AppendArgs, read: Option<nat>)
    | AppendRsp(term: nat, from: Id, matchIndex: nat)
    | ReadRsp(id: nat, from: Id, term: nat)
    | SnapReq(term: nat, data: Log)

  /** The winning election of a term: its leader and the voters that elected it. */
  datatype Election = Election(leader: Id, quorum: set<Id>)

  /** Server `node` reported, in `term`, that it durably holds the leader's log up
      to `upTo`. */
  datatype Ack = Ack(term: nat, node: Id, upTo: nat)

  /** The leader of `term` moved its commit index to `index` on the word of
      `quorum`. */
  datatype Commit = Commit(term: nat, index: nat, quorum: set<Id>)

  /** A ReadIndex call: leader and term when it began, the fence it took, the
      commits made anywhere before it began, and who confirmed since. */
  datatype Read = Read(leader: Id, term: nat, fence: nat, before: set<Commit>, oks: set<Id>)

  datatype State = State(
    voters: set<Id>,
    nodes: map<Id, Node>,
    msgs: set<Msg>,
    llog: LeaderLogs,
    elect: map<nat, Election>,
    cand: map<(nat, Id), Log>,
    acks: set<Ack>,
    commits: set<Commit>,
    committed: Log,
    fences: map<nat, Read>)

  ghost predicate IsQuorum(q: set<Id>, voters: set<Id>) {
    q <= voters && QuorumSize(|q|, voters)
  }

  ghost predicate Init(s: State) {
    && s.nodes == (map i | i in s.voters :: InitNode())
    && s.msgs == {} && s.llog == map[] && s.elect == map[] && s.cand == map[]
    && s.acks == {} && s.commits == {} && s.committed == [] && s.fences == map[]
  }

  datatype Step =
    | DoStartElection(i: Id)
    | DoVote(i: Id, m: Msg)
    | DoCountVote(i: Id, m: Msg)
    | DoBecomeLeader(i: Id)
    | DoSubmit(i: Id, kind: Kind, command: seq<Byte>)
    | DoSendAppend(i: Id, prev: nat, count: nat)
    | DoAppend(i: Id, m: Msg)
    | DoCountAck(i: Id, m: Msg)
    | DoCommit(i: Id, k: nat)
    | DoSyncBegin(i: Id)
    | DoSyncFlush(i: Id, d: nat)
    | DoSyncEnd(i: Id)
    | DoAnswer(i: Id, w: Waiter)
    | DoApply(i: Id, k: nat)
    | DoCapture(i: Id, k: nat)
    | DoSendSnapshot(i: Id)
    | DoInstall(i: Id, m: Msg)
    | DoConfirmSnapshot(i: Id, peer: Id, k: nat)
    | DoRestart(i: Id, v: nat, k: nat)
    | DoReload(i: Id, v: nat, data: Log, k: nat)
    | DoAdoptTerm(i: Id, t: nat)
    | DoStepDown(i: Id)
    | DoReadBegin(i: Id, r: nat)
    | DoReadCount(i: Id, m: Msg)

  function Put(s: State, i: Id, n: Node): State { s.(nodes := s.nodes[i := n]) }

  function Send(s: State, m: Msg): State { s.(msgs := s.msgs + {m}) }

  /** A leader changed its own log: its term's leader log follows. */
  function Lead(s: State, i: Id, n: Node): State {
    Put(s, i, n).(llog := s.llog[n.term := n.log])
  }

  /** The reply to an AppendEntries: a read fence only looks at the term, a
      replication request at the match index, and a parked reply is not sent. */
  function Replied(s: State, i: Id, n: Node, o: Outcome, read: Option<nat>): State {
    if read.Some? then Send(s, ReadRsp(read.value, i, n.term))
    else if o.Matched? then
      Send(s, AppendRsp(n.term, i, o.matchIndex)).(acks := s.acks + {Ack(n.term, i, o.matchIndex)})
    else s
  }

  /** The longer of the two commit histories. */
  function Longer(a: Log, b: Log): Log { if |a| <= |b| then b else a }

  /** A server times out, campaigns in the next term and votes for itself. */
  ghost predicate StartElectionNext(s: State, i: Id, s': State) {
    && i in s.voters && i in s.nodes
    && var n := s.nodes[i];
    var n' := StartElection(n, i);
    && n.role != Leader
    && s' == Send(Send(Put(s, i, n').(cand := s.cand[(n'.term, i) := n.log]),
                       VoteReq(VoteArgs(n'.term, i, |n.log|, LastTerm(n.log)))),
                  VoteRsp(n'.term, i, i))
  }

  /** A RequestVote is delivered. */
  ghost predicate VoteNext(s: State, i: Id, m: Msg, s': State) {
    && i in s.voters && i in s.nodes
    && var n := s.nodes[i];
    && m in s.msgs && m.VoteReq?
    && var (n', r) := HandleRequestVote(n, s.voters, m.vote);
       s' == if r.granted then Send(Put(s, i, n'), VoteRsp(n'.term, i, m.vote.candidate)) else Put(s, i, n')
  }

  /** A candidate counts a vote granted to it in its current term. */
  ghost predicate CountVoteNext(s: State, i: Id, m: Msg, s': State) {
    && i in s.voters && i in s.nodes
    && var n := s.nodes[i];
    && m in s.msgs && m.VoteRsp? && m.candidate == i && m.term == n.term && n.role == Candidate
    && s' == Put(s, i, n.(votes := n.votes + {m.voter}))
  }

  /** A candidate with a majority of votes leads its term. */
  ghost predicate BecomeLeaderNext(s: State, i: Id, s': State) {
    && i in s.voters && i in s.nodes
    && var n := s.nodes[i];
    && n.role == Candidate && QuorumSize(|n.votes|, s.voters)
    && s' == Lead(s, i, BecomeLeader(n)).(elect := s.elect[n.term := Election(i, n.votes)])
  }

  /** A leader appends a command, before any fsync. */
  ghost predicate SubmitNext(s: State, i: Id, kind: Kind, command: seq<Byte>, s': State) {
    && i in s.voters && i in s.nodes
    && var n := s.nodes[i];
    n.role == Leader && s' == Lead(s, i, AppendOwn(n, kind, command))
  }

  /** A leader sends entries it may not have fsynced itself, or a heartbeat. */
  ghost predicate SendAppendNext(s: State, i: Id, prev: nat, count: nat, s': State) {
    && i in s.voters && i in s.nodes
    && var n := s.nodes[i];
    && n.role == Leader && n.snap <= prev && prev + count <= |n.log|
    && s' == Send(s, AppendReq(AppendArgs(n.term, prev, TermAt(n.log, prev), n.log[prev..prev + count], n.commit), None))
  }

  /** An AppendEntries is delivered; the reply is sent, or parked until an fsync. */
  ghost predicate AppendNext(s: State, i: Id, m: Msg, s': State) {
    && i in s.voters && i in s.nodes
    && var n := s.nodes[i];
    && m in s.msgs && m.AppendReq?
    && var (n', o) := HandleAppendEntries(n, m.append);
       s' == Replied(Put(s, i, n'), i, n', o, m.read)
  }

  /** A leader learns of a peer's durable progress, in whatever order replies come. */
  ghost predicate CountAckNext(s: State, i: Id, m: Msg, s': State) {
    && i in s.voters && i in s.nodes
    && var n := s.nodes[i];
    && m in s.msgs && m.AppendRsp? && n.role == Leader && m.term == n.term
    && s' == Put(s, i, n.(matched := n.matched[m.from := Max(MatchedAt(n, m.from), m.matchIndex)]))
  }

  /** A leader moves its commit index to an index of its own term held by a majority. */
  ghost predicate CommitNext(s: State, i: Id, k: nat, s': State) {
    && i in s.voters && i in s.nodes
    && var n := s.nodes[i];
    && n.role == Leader && CanCommit(n, i, s.voters, k)
    && s' == Put(s, i, n.(commit := k)).(
                 acks := s.acks + {Ack(n.term, i, n.durable)},
                 commits := s.commits + {Commit(n.term, k, Holders(n, i, s.voters, k))},
                 committed := Longer(s.committed, n.log[..k]))
  }

  /** The syncer captures the log tail. */
  ghost predicate SyncBeginNext(s: State, i: Id, s': State) {
    && i in s.voters && i in s.nodes
    && var n := s.nodes[i];
    n.sync.Idle? && n.vers != [] && s' == Put(s, i, SyncBegin(n))
  }

  /** The syncer has written the queue and fsynced it; what was queued since the
      write began is not covered. */
  ghost predicate SyncFlushNext(s: State, i: Id, d: nat, s': State) {
    && i in s.voters && i in s.nodes
    && var n := s.nodes[i];
    n.sync.Captured? && n.sync.base <= d < |n.vers| && s' == Put(s, i, SyncFlush(n, d))
  }

  /** The syncer marks the captured tail durable. */
  ghost predicate SyncEndNext(s: State, i: Id, s': State) {
    && i in s.voters && i in s.nodes
    && var n := s.nodes[i];
    n.sync.Flushed? && s' == Put(s, i, SyncEnd(n))
  }

  /** A parked reply is decided: confirmed, or failed (no acknowledgement). */
  ghost predicate AnswerNext(s: State, i: Id, w: Waiter, s': State) {
    && i in s.voters && i in s.nodes
    && var n := s.nodes[i];
    && w in n.waiters && !Decide(n, w).Wait?
    && var s1 := Put(s, i, n.(waiters := n.waiters - {w}));
       s' == if Decide(n, w).Confirm?
             then Replied(s1, i, n, Matched(n.term, w.target), None)
             else s1
  }

  /** Committed entries up to `k` are applied. */
  ghost predicate ApplyNext(s: State, i: Id, k: nat, s': State) {
    && i in s.voters && i in s.nodes
    && var n := s.nodes[i];
    |n.applied| <= k <= Min(n.commit, |n.log|) && s' == Put(s, i, Apply(n, k))
  }

  /** The log is compacted behind a snapshot of the applied state at `k`. */
  ghost predicate CaptureNext(s: State, i: Id, k: nat, s': State) {
    && i in s.voters && i in s.nodes
    && var n := s.nodes[i];
    n.snap < k <= |n.applied| <= |n.log| && s' == Put(s, i, Capture(n, k))
  }

  /** A leader offers its snapshot. */
  ghost predicate SendSnapshotNext(s: State, i: Id, s': State) {
    && i in s.voters && i in s.nodes
    && var n := s.nodes[i];
    && n.role == Leader && 0 < n.snap <= |n.log|
    && s' == Send(s, SnapReq(n.term, n.log[..n.snap]))
  }

  /** A received snapshot is installed. */
  ghost predicate InstallNext(s: State, i: Id, m: Msg, s': State) {
    && i in s.voters && i in s.nodes
    && var n := s.nodes[i];
    && m in s.msgs && m.SnapReq? && m.term <= n.term
    && n.snap < |m.data| && |n.applied| < |m.data|
    && s' == Put(s, i, Install(n, m.data))
  }

  /** A leader learns that a peer holds a snapshot of compacted entries. */
  ghost predicate ConfirmSnapshotNext(s: State, i: Id, peer: Id, k: nat, s': State) {
    && i in s.voters && i in s.nodes
    && var n := s.nodes[i];
    && n.role == Leader && k <= n.snap
    && s' == Put(s, i, n.(matched := n.matched[peer := Max(MatchedAt(n, peer), k)]))
  }

  /** A server crashes and restarts from disk: the queue is lost from some record on,
      and the state machine is back at `k` applied entries. */
  ghost predicate RestartNext(s: State, i: Id, v: nat, k: nat, s': State) {
    && i in s.voters && i in s.nodes
    && var n := s.nodes[i];
    && v < |n.vers| && RestartAt(n, n.vers[v], k)
    && s' == Put(s, i, Restart(n, n.vers[v], k))
  }

  /** Snapshot `data` may be in place while the log file is not yet rewritten: the server
      captured it, or received it for an install. */
  ghost predicate SnapshotInPlace(s: State, n: Node, data: Log) {
    && n.snap < |data|
    && (data <= n.applied || (|n.applied| < |data| && exists m :: m in s.msgs && m.SnapReq? && m.term <= n.term && m.data == data))
  }

  /** The process dies between the rename of a snapshot and the rewrite of the log file, and
      restarts with both, if the log file ends within the snapshot or agrees with it. */
  ghost predicate ReloadNext(s: State, i: Id, v: nat, data: Log, k: nat, s': State) {
    && i in s.voters && i in s.nodes
    && var n := s.nodes[i];
    && v < |n.vers| && SnapshotInPlace(s, n, data) && Agrees(n.vers[v], data) && n.snap <= |n.applied| && ReloadAt(n, n.vers[v], data, k)
    && s' == Put(s, i, Reload(n, n.vers[v], data, k))
  }

  /** A reply of a later term makes the server a follower in it. */
  ghost predicate AdoptTermNext(s: State, i: Id, t: nat, s': State) {
    && i in s.voters && i in s.nodes
    && var n := s.nodes[i];
    n.term < t && s' == Put(s, i, BecomeFollower(n, t))
  }

  /** A server falls back to follower within its term. */
  ghost predicate StepDownNext(s: State, i: Id, s': State) {
    && i in s.voters && i in s.nodes
    && var n := s.nodes[i];
    s' == Put(s, i, n.(role := Follower))
  }

  /** A ReadIndex call takes the commit index as fence and asks for confirmation. */
  ghost predicate ReadBeginNext(s: State, i: Id, r: nat, s': State) {
    && i in s.voters && i in s.nodes
    && var n := s.nodes[i];
    && n.role == Leader && n.commit > 0 && TermAt(n.log, n.commit) == n.term && r !in s.fences
    && s' == Send(s, AppendReq(AppendArgs(n.term, |n.log|, LastTerm(n.log), [], n.commit), Some(r))).(
                 fences := s.fences[r := Read(i, n.term, n.commit, s.commits, {i})])
  }

  /** A confirmation with no later term counts. */
  ghost predicate ReadCountNext(s: State, i: Id, m: Msg, s': State) {
    && i in s.voters && i in s.nodes
    && m in s.msgs && m.ReadRsp? && m.id in s.fences && s.fences[m.id].leader == i && m.term <= s.fences[m.id].term
    && s' == s.(fences := s.fences[m.id := s.fences[m.id].(oks := s.fences[m.id].oks + {m.from})])
  }

  ghost predicate Next(s: State, step: Step, s': State) {
    match step
    case DoStartElection(i) => StartElectionNext(s, i, s')
    case DoVote(i, m) => VoteNext(s, i, m, s')
    case DoCountVote(i, m) => CountVoteNext(s, i, m, s')
    case DoBecomeLeader(i) => BecomeLeaderNext(s, i, s')
    case DoSubmit(i, kind, command) => SubmitNext(s, i, kind, command, s')
    case DoSendAppend(i, prev, count) => SendAppendNext(s, i, prev, count, s')
    case DoAppend(i, m) => AppendNext(s, i, m, s')
    case DoCountAck(i, m) => CountAckNext(s, i, m, s')
    case DoCommit(i, k) => CommitNext(s, i, k, s')
    case DoSyncBegin(i) => SyncBeginNext(s, i, s')
    case DoSyncFlush(i, d) => SyncFlushNext(s, i, d, s')
    case DoSyncEnd(i) => SyncEndNext(s, i, s')
    case DoAnswer(i, w) => AnswerNext(s, i, w, s')
    case DoApply(i, k) => ApplyNext(s, i, k, s')
    case DoCapture(i, k) => CaptureNext(s, i, k, s')
    case DoSendSnapshot(i) => SendSnapshotNext(s, i, s')
    case DoInstall(i, m) => InstallNext(s, i, m, s')
    case DoConfirmSnapshot(i, peer, k) => ConfirmSnapshotNext(s, i, peer, k, s')
    case DoRestart(i, v, k) => RestartNext(s, i, v, k, s')
    case DoReload(i, v, data, k) => ReloadNext(s, i, v, data, k, s')
    case DoAdoptTerm(i, t) => AdoptTermNext(s, i, t, s')
    case DoStepDown(i) => StepDownNext(s, i, s')
    case DoReadBegin(i, r) => ReadBeginNext(s, i, r, s')
    case DoReadCount(i, m) => ReadCountNext(s, i, m, s')
  }

  /** A finite run: `step` k leads from state k to state k + 1. */
  ghost predicate IsRun(states: seq<State>, steps: seq<Step>) {
    && |states| == |steps| + 1 && Init(states[0])
    && forall k :: 0 <= k < |steps| ==> Next(states[k], steps[k], states[k + 1])
  }
}
