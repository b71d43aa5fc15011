/** Commits, the requests that carry them, and read fences. */
module CommitSteps {
  import opened Basics
  import opened RaftLog
  import opened RaftNodeSpec
  import opened Cluster
  import opened Invariant
  import opened Completeness
  import opened NodeSteps
  import opened ElectionSteps
  import opened AckSteps

  lemma KnownMore(commits: set<Commit>, commits': set<Commit>, k: nat, k': nat, t: nat, t': nat)
    requires Known(commits, k, t) && commits <= commits' && k' <= k && t <= t'
    ensures Known(commits', k', t')
  {
    if k' > 0 {
      var c :| c in commits && c.term <= t && k <= c.index;
      assert c in commits';
    }
  }

  // ----- frames

  /** Nothing was committed; server `i` became `n'`. */
  lemma CommitsFrame(s: State, s': State, i: Id, n': Node)
    requires CommitsOk(s) && OneNode(s, s', i, n') && s'.commits == s.commits && s'.committed == s.committed
    requires s.acks <= s'.acks && NodeCommitOk(s.commits, s.committed, n')
    ensures CommitsOk(s')
  {
    forall c | c in s'.commits
      ensures CommitOk(s'.llog, s'.acks, s'.voters, c) && Has(s'.committed, s'.llog[c.term], c.index)
    {
      assert CommitOk(s.llog, s.acks, s.voters, c);
      forall v | v in c.quorum ensures HasAck(s'.acks, c.term, v, c.index) { assert HasAck(s.acks, c.term, v, c.index); }
    }
  }

  lemma CommitsGrown(s: State, s': State, i: Id, log': Log)
    requires CommitsOk(s) && Appends(s, s', i, log') && s'.committed == s.committed && s'.acks == s.acks
    requires NodeCommitOk(s.commits, s.committed, s'.nodes[i])
    ensures CommitsOk(s')
  {
    forall c | c in s'.commits
      ensures CommitOk(s'.llog, s'.acks, s'.voters, c) && Has(s'.committed, s'.llog[c.term], c.index)
    {
      assert CommitOk(s.llog, s.acks, s.voters, c);
      HasGrownRight(s.committed, s.llog[c.term], s'.llog[c.term], c.index);
    }
  }

  lemma AppendOkGrows(ll: LeaderLogs, ll': LeaderLogs, commits: set<Commit>, commits': set<Commit>, committed: Log, committed': Log, a: AppendArgs)
    requires AppendOk(ll, commits, committed, a) && Grown(ll, ll') && commits <= commits' && committed <= committed'
    ensures AppendOk(ll', commits', committed', a)
  {
    var log, log' := ll[a.term], ll'[a.term];
    KnownMore(commits, commits', a.commit, a.commit, a.term, a.term);
    HasExtend(log, log', committed, a.commit);
    HasGrownRight(log', committed, committed', a.commit);
  }

  /** Old requests stay good when leader logs and the committed log grow. */
  lemma RequestsGrow(s: State, s': State)
    requires RequestsOk(s) && Grown(s.llog, s'.llog) && s.commits <= s'.commits && s.committed <= s'.committed
    requires forall m :: m in s'.msgs && (m.AppendReq? || m.SnapReq?) ==> m in s.msgs
    ensures RequestsOk(s')
  {
    forall m | m in s'.msgs
      ensures m.AppendReq? ==> AppendOk(s'.llog, s'.commits, s'.committed, m.append)
      ensures m.SnapReq? ==> m.data != [] && m.data <= s'.committed && Known(s'.commits, |m.data|, m.term)
    {
      if m.AppendReq? {
        AppendOkGrows(s.llog, s'.llog, s.commits, s'.commits, s.committed, s'.committed, m.append);
      } else if m.SnapReq? {
        KnownMore(s.commits, s'.commits, |m.data|, |m.data|, m.term, m.term);
      }
    }
  }

  lemma FencesFrame(s: State, s': State)
    requires FencesOk(s) && s'.fences == s.fences && s'.voters == s.voters
    requires Grown(s.llog, s'.llog) && s.commits <= s'.commits
    requires forall m :: m in s'.msgs && (m.ReadRsp? || (m.AppendReq? && m.read.Some?)) ==> m in s.msgs
    ensures FencesOk(s')
  {
    forall r | r in s'.fences ensures FenceOk(s'.llog, s'.commits, s'.voters, s'.fences[r]) {
      assert FenceOk(s.llog, s.commits, s.voters, s.fences[r]);
    }
  }

  lemma SameIsGrown(ll: LeaderLogs)
    ensures Grown(ll, ll)
  {}

  // ----- a leader commits

  lemma CommitHolders(s: State, i: Id, k: nat)
    requires MatchedOk(s) && ElectionsOk(s) && i in s.nodes && s.nodes[i].role == Leader
    requires CanCommit(s.nodes[i], i, s.voters, k)
    ensures var n := s.nodes[i];
      CommitOk(s.llog, s.acks + {Ack(n.term, i, n.durable)}, s.voters, Commit(n.term, k, Holders(n, i, s.voters, k)))
  {
    var n := s.nodes[i];
    var acks' := s.acks + {Ack(n.term, i, n.durable)};
    assert RoleOk(s, i);
    forall v | v in Holders(n, i, s.voters, k) ensures HasAck(acks', n.term, v, k) {
      var a := if v == i then Ack(n.term, i, n.durable) else Ack(n.term, v, MatchedAt(n, v));
      assert a in acks';
    }
  }

  /** The new commit agrees with every commit before it. */
  lemma CommitExtends(s: State, s': State, d: Commit)
    requires LeaderLogsOk(s.llog) && CommitsOk(s) && History(s')
    requires s'.llog == s.llog && s'.commits == s.commits + {d} && d.term in s.llog && d.index <= |s.llog[d.term]|
    requires s'.committed == Longer(s.committed, s.llog[d.term][..d.index])
    ensures s.committed <= s'.committed
    ensures forall c :: c in s'.commits ==> c.term in s'.llog && Has(s'.committed, s'.llog[c.term], c.index)
    ensures s'.committed != [] ==> exists c :: c in s'.commits && c.index == |s'.committed|
  {
    var p := s.llog[d.term];
    forall c | c in s.commits ensures c.term in s.llog && Has(s.committed, s.llog[c.term], c.index) {
      assert CommitOk(s.llog, s.acks, s.voters, c);
    }
    if |s.committed| <= d.index {
      forall c | c in s.commits ensures Has(s'.committed, s.llog[c.term], c.index) {
        CommitsAgree(s', c, d);
        assert s'.committed[..c.index] == p[..c.index];
      }
      if s.committed != [] {
        var e :| e in s.commits && e.index == |s.committed|;
        assert Has(s'.committed, s.llog[e.term], e.index);
        assert s.committed[..|s.committed|] == s.committed;
      }
      assert s'.committed[..d.index] == p[..d.index];
      assert d in s'.commits && d.index == |s'.committed|;
    } else {
      var e :| e in s.commits && e.index == |s.committed|;
      CommitsAgree(s', d, e);
      HasShorter(s.committed, s.llog[e.term], e.index, d.index);
      assert e in s'.commits && e.index == |s'.committed|;
    }
  }

  lemma NodeCommitGrows(commits: set<Commit>, commits': set<Commit>, committed: Log, committed': Log, n: Node)
    requires NodeCommitOk(commits, committed, n) && commits <= commits' && committed <= committed'
    requires n.role == Leader ==> forall c :: c in commits' && c.term == n.term ==> c.index <= n.commit
    ensures NodeCommitOk(commits', committed', n)
  {
    KnownMore(commits, commits', n.commit, n.commit, n.term, n.term);
    HasGrownRight(n.log, committed, committed', n.snap);
    HasGrownRight(n.log, committed, committed', n.commit);
  }

  lemma CommitCommits(s: State, s': State, i: Id, k: nat)
    requires NodesOk(s) && CommitsOk(s) && ElectionsOk(s') && AcksOk(s') && ElectionsOk(s) && MatchedOk(s)
    requires CommitNext(s, i, k, s')
    ensures CommitsOk(s') && s.committed <= s'.committed
  {
    var n := s.nodes[i];
    var d := Commit(n.term, k, Holders(n, i, s.voters, k));
    assert RoleOk(s, i);
    CommitHolders(s, i, k);
    forall c | c in s'.commits ensures CommitOk(s'.llog, s'.acks, s'.voters, c) {
      if c in s.commits {
        assert CommitOk(s.llog, s.acks, s.voters, c);
        forall v | v in c.quorum ensures HasAck(s'.acks, c.term, v, c.index) { assert HasAck(s.acks, c.term, v, c.index); }
      }
    }
    HistoryOf(s');
    CommitExtends(s, s', d);
    forall j | j in s'.nodes ensures NodeCommitOk(s'.commits, s'.committed, s'.nodes[j]) {
      CommitNode(s, s', i, k, j);
    }
  }

  lemma HistoryOf(s: State)
    requires ElectionsOk(s) && AcksOk(s)
    requires forall c :: c in s.commits ==> CommitOk(s.llog, s.acks, s.voters, c)
    ensures History(s)
  {
    forall t | t in s.llog ensures t in s.elect && IsQuorum(s.elect[t].quorum, s.voters) { assert ElectOk(s, t); }
  }

  lemma CommitNode(s: State, s': State, i: Id, k: nat, j: Id)
    requires CommitsOk(s) && ElectionsOk(s) && CommitNext(s, i, k, s') && s.committed <= s'.committed
    requires forall c :: c in s'.commits ==> c.term in s'.llog && Has(s'.committed, s'.llog[c.term], c.index)
    requires j in s'.nodes
    ensures NodeCommitOk(s'.commits, s'.committed, s'.nodes[j])
  {
    var n := s.nodes[i];
    assert RoleOk(s, i) && RoleOk(s, j);
    var d := Commit(n.term, k, Holders(n, i, s.voters, k));
    assert NodeCommitOk(s.commits, s.committed, s.nodes[j]);
    if j != i {
      NodeCommitGrows(s.commits, s'.commits, s.committed, s'.committed, s.nodes[j]);
    } else {
      assert d in s'.commits;
      HasGrownRight(n.log, s.committed, s'.committed, n.snap);
    }
  }

  // ----- a follower accepts entries

  lemma CommitWithinTarget(log: Log, p: Log, committed: Log, commit: nat, target: nat, k: nat)
    requires Has(log, p, target) && Has(p, committed, commit) && k <= commit && k <= target
    ensures Has(log, committed, k)
  {
    HasShorter(log, p, target, k);
    HasShorter(p, committed, commit, k);
    HasVia(log, p, committed, k);
  }

  /** `commitIndex` never passes what the request verified. */
  lemma AcceptCommit(s: State, n: Node, n': Node, x: nat, target: nat, commit: nat)
    requires n.term in s.llog && NodeCommitOk(s.commits, s.committed, n) && n.role == Follower
    requires Has(s.llog[n.term], s.committed, n.commit)
    requires Has(s.llog[n.term], s.committed, commit) && Known(s.commits, commit, n.term)
    requires n'.term == n.term && n'.role == n.role && n'.applied == n.applied && n'.snap == n.snap
    requires Has(n'.log, s.llog[n.term], target) && n'.commit == Max(n.commit, Min(commit, target))
    requires LogsUnchanged(n, n') || Replaces(s.llog, n, n', x, target)
    ensures NodeCommitOk(s.commits, s.committed, n')
  {
    var p := s.llog[n.term];
    if n'.commit != n.commit {
      KnownMore(s.commits, s.commits, commit, n'.commit, n.term, n.term);
      CommitWithinTarget(n'.log, p, s.committed, commit, target, n'.commit);
    } else if !LogsUnchanged(n, n') {
      if n'.commit <= target {
        CommitWithinTarget(n'.log, p, s.committed, n.commit, target, n.commit);
      } else if n.commit <= |n.log| {
        HasVia(n.log, s.committed, p, n.commit);
        HasVia(p, s.committed, n.log, n.commit);
        SharedBelow(s.llog, n, n', x, target, n.log, n.commit);
        assert false;
      }
    }
    if !LogsUnchanged(n, n') {
      HasShorter(n.log, p, x, n.snap);
      assert n'.log[..n.snap] == p[..n.snap] == n.log[..n.snap];
    }
  }

  // ----- snapshots and restarts

  lemma InstallLog(ll: LeaderLogs, n: Node, data: Log)
    requires Good(ll, n.log) && Good(ll, data) && data != []
    ensures Install(n, data).log == data || Install(n, data).log == n.log
    ensures |data| <= |n.log| && Has(n.log, data, |data|) ==> Install(n, data).log == n.log
    ensures data <= Install(n, data).log
  {
    if |data| < |n.log| && TermAt(n.log, |data|) == LastTerm(data) {
      LogMatching(ll, n.log, data, |data|);
      assert data + n.log[|data|..] == n.log;
    }
  }

  lemma InstallCommit(s: State, n: Node, data: Log, t: nat)
    requires NodeCommitOk(s.commits, s.committed, n) && t <= n.term
    requires Good(s.llog, n.log) && Good(s.llog, data) && data != [] && data <= s.committed
    requires Known(s.commits, |data|, t) && n.snap < |data| && |n.applied| < |data|
    requires n.role == Leader ==> Install(n, data).log == n.log
    ensures NodeCommitOk(s.commits, s.committed, Install(n, data))
  {
    var n' := Install(n, data);
    InstallLog(s.llog, n, data);
    KnownMore(s.commits, s.commits, |data|, |data|, t, n.term);
    assert n'.log[..|data|] == data == s.committed[..|data|];
    if n.commit > |data| {
      assert n.commit <= |n.log|;
      HasShorter(n.log, s.committed, n.commit, |data|);
      assert data[..|data|] == data;
      assert Has(n.log, data, |data|);
    }
  }

  lemma RestartCommit(s: State, n: Node, v: Log, k: nat)
    requires NodeCommitOk(s.commits, s.committed, n) && RestartAt(n, v, k)
    requires Good(s.llog, v) && Good(s.llog, s.committed) && Has(v, n.log, n.snap) && TermsUpTo(v, n.term)
    ensures NodeCommitOk(s.commits, s.committed, Restart(n, v, k))
  {
    KnownMore(s.commits, s.commits, n.commit, k, n.term, n.term);
    HasVia(v, n.log, s.committed, n.snap);
    if n.snap < k <= |v| { LogMatching(s.llog, v, s.committed, k); }
  }

  lemma CommittedGood(s: State)
    requires LeaderLogsOk(s.llog) && CommitsOk(s)
    ensures Good(s.llog, s.committed)
  {
    if s.committed != [] {
      var c :| c in s.commits && c.index == |s.committed|;
      assert CommitOk(s.llog, s.acks, s.voters, c);
      GoodPrefix(s.llog, s.llog[c.term], c.index);
      assert s.committed[..c.index] == s.committed;
    }
  }

  // ----- installing over acknowledged entries

  /** Installing committed data loses nothing a server acknowledged, unless a later
      leader had already dropped it. */
  lemma InstallKeeps(s: State, n: Node, data: Log, c: Commit, t: nat, k: nat)
    requires LeaderLogsOk(s.llog) && History(s) && NodeOk(s.llog, n)
    requires c in s.commits && c.term in s.llog && c.term <= n.term && |data| <= c.index && Has(data, s.llog[c.term], |data|)
    requires data != [] && Good(s.llog, data)
    requires OwnEntry(s.llog, t, k) && t <= n.term && Kept(s.llog, n, t, k)
    ensures Kept(s.llog, Install(n, data), t, k)
  {
    var n' := Install(n, data);
    assert n.log in n.vers;
    InstallLog(s.llog, n, data);
    var p, q := s.llog[t], s.llog[c.term];
    assert CommitOk(s.llog, s.acks, s.voters, c);
    if AllHave(n.vers, p, k) && n'.log != n.log {
      assert Has(n.log, p, k);
      if c.term <= t {
        LeaderCompleteness(s, c, t);
        HasShorter(p, q, c.index, |data|);
      }
      if c.term <= t || Has(q, p, k) {
        InstallCovers(n.log, data, p, q, k, c.term <= t);
        DataHas(data, p, q, k, c.term <= t);
      } else {
        assert LostBy(s.llog, t, k, n'.term);
      }
    }
  }

  /** If the dropped log shared index `k` with the snapshot's history, `k` is not
      past the snapshot. */
  lemma InstallCovers(log: Log, data: Log, p: Log, q: Log, k: nat, below: bool)
    requires Has(log, p, k) && Has(data, q, |data|)
    requires if below then Has(p, q, |data|) else Has(q, p, k)
    requires !(|data| <= |log| && Has(log, data, |data|))
    ensures k <= |data|
  {
    if |data| < k {
      HasShorter(log, p, k, |data|);
      if !below { HasShorter(q, p, k, |data|); }
      assert false;
    }
  }

  lemma DataHas(data: Log, p: Log, q: Log, k: nat, below: bool)
    requires Has(data, q, |data|) && k <= |data|
    requires if below then Has(p, q, |data|) else Has(q, p, k)
    ensures Has(data, p, k)
  {
    if below { HasShorter(p, q, |data|, k); }
    HasShorter(data, q, |data|, k);
  }
}
