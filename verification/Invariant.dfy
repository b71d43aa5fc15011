/** The inductive invariant of the cluster, in groups that each speak about a few
    components of the state. */
module Invariant {
  import opened Basics
  import opened RaftLog
  import opened RaftNodeSpec
  import opened Cluster

  // ----- one server's logs and their durability

  /** Every log a crash may leave agrees with `log` up to index `k`. */
  ghost predicate AllHave(vers: seq<Log>, log: Log, k: nat) {
    forall v {:trigger v in vers} :: v in vers ==> Has(v, log, k)
  }

  ghost predicate LogsOk(ll: LeaderLogs, n: Node) {
    && n.vers != [] && n.vers[|n.vers| - 1] == n.log
    && (forall v {:trigger v in n.vers} :: v in n.vers ==> Good(ll, v) && TermsUpTo(v, n.term))
    && AllHave(n.vers, n.log, n.snap)
    && n.durable <= |n.log|
  }

  /** Indices up to `k` of the current term survive a crash. */
  ghost predicate TermDurable(vers: seq<Log>, term: nat, log: Log, k: nat) {
    forall j :: 0 < j <= k <= |log| && log[j - 1].term == term ==> AllHave(vers, log, j)
  }

  ghost predicate SyncOk(ll: LeaderLogs, n: Node) {
    match n.sync
    case Idle => true
    case Captured(tail, base) =>
      && Good(ll, tail) && TermsUpTo(tail, n.term) && base < |n.vers|
      && TermDurable(n.vers[base..], n.term, tail, |tail|)
    case Flushed(tail) =>
      && Good(ll, tail) && TermsUpTo(tail, n.term) && TermDurable(n.vers, n.term, tail, |tail|)
  }

  ghost predicate WaiterOk(ll: LeaderLogs, n: Node, w: Waiter) {
    && w.term <= n.term && 0 < w.target
    && (w.term == n.term ==>
          w.term in ll && w.target <= |ll[w.term]| && TermAt(ll[w.term], w.target) == w.targetTerm)
  }

  ghost predicate NodeOk(ll: LeaderLogs, n: Node) {
    && LogsOk(ll, n) && TermDurable(n.vers, n.term, n.log, n.durable) && SyncOk(ll, n)
    && forall w :: w in n.waiters ==> WaiterOk(ll, n, w)
  }

  ghost predicate NodesOk(s: State) {
    && s.nodes.Keys == s.voters
    && LeaderLogsOk(s.llog)
    && forall i {:trigger NodeOk(s.llog, s.nodes[i])} :: i in s.voters ==> NodeOk(s.llog, s.nodes[i])
  }

  // ----- elections

  /** A vote, once granted, binds the voter for that term. */
  ghost predicate VoteBinds(s: State, m: Msg) {
    m.VoteRsp? ==>
      && m.voter in s.nodes && m.candidate in s.voters && (m.term, m.candidate) in s.cand
      && m.term <= s.nodes[m.voter].term
      && (m.term == s.nodes[m.voter].term ==> s.nodes[m.voter].vote == Some(m.candidate))
      && forall m' :: m' in s.msgs && m'.VoteRsp? && m'.term == m.term && m'.voter == m.voter
           ==> m'.candidate == m.candidate
  }

  ghost predicate VoteReqOk(s: State, m: Msg) {
    m.VoteReq? ==>
      && (m.vote.term, m.vote.candidate) in s.cand
      && var log := s.cand[(m.vote.term, m.vote.candidate)];
         m.vote.lastIndex == |log| && m.vote.lastTerm == LastTerm(log)
  }

  ghost predicate CandOk(s: State, t: nat, i: Id) {
    (t, i) in s.cand ==>
      && i in s.nodes && 0 < t <= s.nodes[i].term
      && Good(s.llog, s.cand[(t, i)]) && TermsUpTo(s.cand[(t, i)], t - 1)
  }

  /** Every vote of the winning quorum went to the leader; the leader log of the
      term starts with the log the leader campaigned with. */
  ghost predicate ElectOk(s: State, t: nat) {
    t in s.llog ==>
      && t in s.elect
      && var e := s.elect[t];
      && IsQuorum(e.quorum, s.voters) && e.leader in s.nodes
      && (forall v :: v in e.quorum ==> VoteRsp(t, v, e.leader) in s.msgs)
      && (t, e.leader) in s.cand && s.cand[(t, e.leader)] <= s.llog[t]
      && (s.nodes[e.leader].term == t ==> s.nodes[e.leader].role != Candidate)
  }

  /** A committed index of an earlier term that the campaign log of (t, i) lacks. */
  ghost predicate Doomed(s: State, t: nat, i: Id) {
    exists c :: c in s.commits && c.term < t && c.term in s.llog && (t, i) in s.cand
      && !Has(s.cand[(t, i)], s.llog[c.term], c.index)
  }

  ghost predicate RoleOk(s: State, i: Id) {
    i in s.nodes ==>
      var n := s.nodes[i];
      && (n.role == Leader ==>
            && n.term in s.llog && s.llog[n.term] == n.log && n.term in s.elect && s.elect[n.term].leader == i)
      && (n.role == Candidate ==>
            && n.term > 0 && (n.term, i) in s.cand
            && (forall v :: v in n.votes ==> VoteRsp(n.term, v, i) in s.msgs)
            && (s.cand[(n.term, i)] == n.log || n.term in s.llog || Doomed(s, n.term, i)))
  }

  ghost predicate ElectionsOk(s: State) {
    && (forall m {:trigger VoteBinds(s, m)} {:trigger VoteReqOk(s, m)} :: m in s.msgs ==> VoteBinds(s, m) && VoteReqOk(s, m))
    && (forall t, i {:trigger CandOk(s, t, i)} :: (t, i) in s.cand ==> CandOk(s, t, i))
    && (forall t {:trigger ElectOk(s, t)} :: t in s.llog ==> ElectOk(s, t))
    && (forall i {:trigger RoleOk(s, i)} :: i in s.nodes ==> RoleOk(s, i))
  }

  // ----- acknowledgements and votes

  /** Some leader of a term in (t, u] was elected without index `k` of term `t`. */
  ghost predicate LostBy(ll: LeaderLogs, t: nat, k: nat, u: nat) {
    exists w :: w in ll && t in ll && t < w <= u && !Has(ll[w], ll[t], k)
  }

  /** Index `k` holds an entry its own leader created in term `t`. */
  ghost predicate OwnEntry(ll: LeaderLogs, t: nat, k: nat) {
    t in ll && 0 < k <= |ll[t]| && ll[t][k - 1].term == t
  }

  /** Server `n` still holds index `k` of term `t`, whatever a crash does — or a
      later leader was elected without it. */
  ghost predicate Kept(ll: LeaderLogs, n: Node, t: nat, k: nat)
    requires t in ll
  {
    AllHave(n.vers, ll[t], k) || LostBy(ll, t, k, n.term)
  }

  ghost predicate AckOk(ll: LeaderLogs, n: Node, a: Ack) {
    && a.term in ll && a.upTo <= |ll[a.term]| && a.term <= n.term
    && forall k: nat {:trigger Kept(ll, n, a.term, k)} :: OwnEntry(ll, a.term, k) && k <= a.upTo ==> Kept(ll, n, a.term, k)
  }

  /** What voter `v` acknowledged before term `t`, the log `log` has — or a leader
      elected in between already lacked it. */
  ghost predicate VoterKnew(ll: LeaderLogs, acks: set<Ack>, t: nat, v: Id, log: Log) {
    forall a, k: nat :: a in acks && a.node == v && a.term < t && OwnEntry(ll, a.term, k) && k <= a.upTo ==>
      Has(log, ll[a.term], k) || LostBy(ll, a.term, k, t - 1)
  }

  /** A vote of a term still without a leader. */
  ghost predicate VoteKnew(s: State, m: Msg) {
    m.VoteRsp? && m.term !in s.llog && (m.term, m.candidate) in s.cand ==>
      VoterKnew(s.llog, s.acks, m.term, m.voter, s.cand[(m.term, m.candidate)])
  }

  /** A vote that elected a leader. */
  ghost predicate QuorumKnew(s: State, t: nat, v: Id) {
    t in s.llog && t in s.elect && v in s.elect[t].quorum ==> VoterKnew(s.llog, s.acks, t, v, s.llog[t])
  }

  ghost predicate AckHeld(s: State, a: Ack) {
    a.node in s.nodes && AckOk(s.llog, s.nodes[a.node], a)
  }

  ghost predicate AcksOk(s: State) {
    && (forall a {:trigger AckHeld(s, a)} :: a in s.acks ==> AckHeld(s, a))
    && (forall m {:trigger VoteKnew(s, m)} :: m in s.msgs ==> VoteKnew(s, m))
    && (forall t, v {:trigger QuorumKnew(s, t, v)} :: QuorumKnew(s, t, v))
    && (forall m :: m in s.msgs && m.AppendRsp? ==> Ack(m.term, m.from, m.matchIndex) in s.acks)
  }

  /** A leader's peer table holds acknowledgements of its own term, or indices it
      has committed already. */
  ghost predicate MatchedOk(s: State) {
    forall i, p :: i in s.nodes && p in s.nodes[i].matched && s.nodes[i].role == Leader ==>
      || Ack(s.nodes[i].term, p, s.nodes[i].matched[p]) in s.acks
      || s.nodes[i].matched[p] <= s.nodes[i].commit
  }

  // ----- requests

  ghost predicate Known(commits: set<Commit>, k: nat, t: nat) {
    k > 0 ==> exists c :: c in commits && c.term <= t && k <= c.index
  }

  ghost predicate AppendOk(ll: LeaderLogs, commits: set<Commit>, committed: Log, a: AppendArgs) {
    && a.term in ll
    && var log := ll[a.term];
    && Piece(a.entries, log, a.prev) && a.prevTerm == TermAt(log, a.prev)
    && Has(log, committed, a.commit) && Known(commits, a.commit, a.term)
  }

  ghost predicate RequestsOk(s: State) {
    forall m :: m in s.msgs ==>
      && (m.AppendReq? ==> AppendOk(s.llog, s.commits, s.committed, m.append))
      && (m.SnapReq? ==> m.data != [] && m.data <= s.committed && Known(s.commits, |m.data|, m.term))
  }

  // ----- commits

  ghost predicate HasAck(acks: set<Ack>, t: nat, v: Id, k: nat) {
    exists a :: a in acks && a.term == t && a.node == v && k <= a.upTo
  }

  ghost predicate CommitOk(ll: LeaderLogs, acks: set<Ack>, voters: set<Id>, c: Commit) {
    && OwnEntry(ll, c.term, c.index)
    && IsQuorum(c.quorum, voters)
    && forall v :: v in c.quorum ==> HasAck(acks, c.term, v, c.index)
  }

  ghost predicate NodeCommitOk(commits: set<Commit>, committed: Log, n: Node) {
    && Known(commits, n.commit, n.term)
    && |n.applied| <= n.commit <= |committed| && n.applied <= committed
    && n.snap <= |n.applied| && Has(n.log, committed, n.snap)
    && (if n.commit <= |n.log| then Has(n.log, committed, n.commit) else n.commit == |n.applied|)
    && (n.role == Leader ==>
          && n.commit <= |n.log|
          && forall c :: c in commits && c.term == n.term ==> c.index <= n.commit)
  }

  ghost predicate CommitsOk(s: State) {
    && (forall c {:trigger CommitOk(s.llog, s.acks, s.voters, c)} :: c in s.commits ==>
          CommitOk(s.llog, s.acks, s.voters, c) && Has(s.committed, s.llog[c.term], c.index))
    && (s.committed != [] ==> exists c :: c in s.commits && c.index == |s.committed|)
    && (forall i {:trigger NodeCommitOk(s.commits, s.committed, s.nodes[i])} ::
          i in s.nodes ==> NodeCommitOk(s.commits, s.committed, s.nodes[i]))
  }

  // ----- read fences

  ghost predicate FenceOk(ll: LeaderLogs, commits: set<Commit>, voters: set<Id>, r: Read) {
    && r.before <= commits
    && r.oks <= voters
    && OwnEntry(ll, r.term, r.fence)
    && (forall c :: c in r.before && c.term == r.term ==> c.index <= r.fence)
    && (forall c :: c in r.before && r.term < c.term ==> c.quorum !! r.oks)
  }

  ghost predicate FencesOk(s: State) {
    && (forall r :: r in s.fences ==> FenceOk(s.llog, s.commits, s.voters, s.fences[r]))
    && (forall m :: m in s.msgs && m.ReadRsp? ==>
          && m.id in s.fences && m.from in s.voters
          && forall c :: c in s.fences[m.id].before && m.term < c.term ==> m.from !in c.quorum)
    && (forall m :: m in s.msgs && m.AppendReq? && m.read.Some? ==> m.read.value in s.fences)
  }

  ghost predicate Inv(s: State) {
    && NodesOk(s) && ElectionsOk(s) && AcksOk(s) && MatchedOk(s)
    && RequestsOk(s) && CommitsOk(s) && FencesOk(s)
  }
}
