/** Every step keeps the invariant. */
module Preservation {
  import opened Basics
  import opened RaftLog
  import opened RaftNodeSpec
  import opened Cluster
  import opened Invariant
  import opened Completeness
  import opened NodeSteps
  import opened ElectionSteps
  import opened AckSteps
  import opened CommitSteps

  lemma InitInv(s: State)
    requires Init(s)
    ensures Inv(s)
  {
    forall i | i in s.voters ensures NodeOk(s.llog, s.nodes[i]) {}
  }

  lemma NodesPut(s: State, s': State, i: Id, n': Node)
    requires NodesOk(s) && i in s.voters && s'.nodes == s.nodes[i := n'] && s'.voters == s.voters && s'.llog == s.llog
    requires NodeOk(s.llog, n')
    ensures NodesOk(s')
  {}

  /** What the invariant says about one server. */
  lemma At(s: State, i: Id)
    requires Inv(s) && i in s.voters
    ensures i in s.nodes && NodeOk(s.llog, s.nodes[i]) && s.nodes[i].log in s.nodes[i].vers
    ensures NodeCommitOk(s.commits, s.committed, s.nodes[i]) && RoleOk(s, i)
  {
    var n := s.nodes[i];
    assert NodeOk(s.llog, n) && RoleOk(s, i) && NodeCommitOk(s.commits, s.committed, n);
    assert n.vers[|n.vers| - 1] == n.log;
  }

  /** Replacing a server twice is replacing it once, and by itself never. */
  lemma PutPut(s: State, i: Id, n: Node, n': Node)
    requires i in s.nodes
    ensures Put(Put(s, i, n), i, n') == Put(s, i, n') && Put(s, i, s.nodes[i]) == s
  {}

  // ----- steps that touch one server and at most send a request

  /** Server `i` becomes `n'`; nothing is acknowledged, voted or committed. */
  ghost predicate OnlyRequests(s: State, s': State, i: Id, n': Node) {
    && OneNode(s, s', i, n') && s'.acks == s.acks && s'.commits == s.commits && s'.committed == s.committed
    && forall m :: m in s'.msgs && !m.SnapReq? && !m.AppendReq? ==> m in s.msgs
  }

  lemma FrameKeeps(s: State, s': State, i: Id, n': Node)
    requires Inv(s) && i in s.voters && OnlyRequests(s, s', i, n')
    requires NodeOk(s.llog, n') && KeepsVote(s.nodes[i], n') && RoleOk(s', i)
    requires forall a :: a in s.acks && a.node == i ==> AckOk(s.llog, n', a)
    requires MatchedOk(s') && NodeCommitOk(s.commits, s.committed, n') && RequestsOk(s') && FencesOk(s')
    ensures Inv(s')
  {
    NodesPut(s, s', i, n');
    ElectionsFrame(s, s', i, n');
    AcksFrame(s, s', i, n');
    CommitsFrame(s, s', i, n');
  }

  /** No server changes. */
  lemma StillKeeps(s: State, s': State, i: Id)
    requires Inv(s) && i in s.voters && OnlyRequests(s, s', i, s.nodes[i]) && RequestsOk(s') && FencesOk(s')
    ensures Inv(s')
  {
    At(s, i);
    RoleKept(s, s', i, s.nodes[i]);
    MatchedFrame(s, s', i);
    forall a | a in s.acks && a.node == i ensures AckOk(s.llog, s.nodes[i], a) { assert AckHeld(s, a); }
    FrameKeeps(s, s', i, s.nodes[i]);
  }

  lemma PutKeeps(s: State, i: Id, n': Node)
    requires Inv(s) && i in s.voters
    requires NodeOk(s.llog, n') && KeepsVote(s.nodes[i], n') && RoleOk(Put(s, i, n'), i)
    requires forall a :: a in s.acks && a.node == i ==> AckOk(s.llog, n', a)
    requires MatchedOk(Put(s, i, n')) && NodeCommitOk(s.commits, s.committed, n')
    ensures Inv(Put(s, i, n'))
  {
    SameIsGrown(s.llog);
    RequestsGrow(s, Put(s, i, n'));
    FencesFrame(s, Put(s, i, n'));
    FrameKeeps(s, Put(s, i, n'), i, n');
  }

  /** Role, term and log stay, or the server falls back to follower; a crash may
      leave nothing new. */
  ghost predicate LocalOk(s: State, n: Node, n': Node) {
    && NodeOk(s.llog, n') && NodeCommitOk(s.commits, s.committed, n') && KeepsVote(n, n')
    && (|| n'.role == Follower
        || (n'.role == n.role && n'.term == n.term && n'.log == n.log && n'.votes == n.votes
            && n'.matched == n.matched && n.commit <= n'.commit))
    && (forall v :: v in n'.vers ==> v in n.vers)
  }

  lemma LocalKeeps(s: State, i: Id, n': Node)
    requires Inv(s) && i in s.voters && LocalOk(s, s.nodes[i], n')
    ensures Inv(Put(s, i, n'))
  {
    var s' := Put(s, i, n');
    At(s, i);
    RoleKept(s, s', i, n');
    forall a | a in s.acks && a.node == i ensures AckOk(s.llog, n', a) {
      assert AckHeld(s, a);
      AckShrinks(s.llog, s.nodes[i], n', a);
    }
    MatchedFrame(s, s', i);
    PutKeeps(s, i, n');
  }

  lemma SyncLocal(s: State, n: Node, d: nat)
    requires NodeOk(s.llog, n) && NodeCommitOk(s.commits, s.committed, n) && n.log in n.vers
    ensures n.sync.Idle? ==> LocalOk(s, n, SyncBegin(n))
    ensures n.sync.Captured? && n.sync.base <= d < |n.vers| ==> LocalOk(s, n, SyncFlush(n, d))
    ensures n.sync.Flushed? ==> LocalOk(s, n, SyncEnd(n))
  {
    SyncSteps(s.llog, n, d);
  }

  lemma SyncKeeps(s: State, i: Id, d: nat)
    requires Inv(s) && i in s.voters && s.nodes[i].vers != []
    ensures var n := s.nodes[i];
      && (n.sync.Idle? ==> Inv(Put(s, i, SyncBegin(n))))
      && (n.sync.Captured? && n.sync.base <= d < |n.vers| ==> Inv(Put(s, i, SyncFlush(n, d))))
      && (n.sync.Flushed? ==> Inv(Put(s, i, SyncEnd(n))))
  {
    var n := s.nodes[i];
    At(s, i);
    SyncLocal(s, n, d);
    if n.sync.Idle? {
      LocalKeeps(s, i, SyncBegin(n));
    } else if n.sync.Flushed? {
      LocalKeeps(s, i, SyncEnd(n));
    } else if n.sync.base <= d < |n.vers| {
      LocalKeeps(s, i, SyncFlush(n, d));
    }
  }

  lemma ApplyLocal(s: State, n: Node, k: nat)
    requires NodeOk(s.llog, n) && NodeCommitOk(s.commits, s.committed, n)
    requires |n.applied| <= k <= Min(n.commit, |n.log|)
    ensures LocalOk(s, n, Apply(n, k))
  {
    TermStep(s.llog, n, Apply(n, k));
    if n.commit <= |n.log| {
      HasShorter(n.log, s.committed, n.commit, k);
      HasShorter(n.log, s.committed, n.commit, |n.applied|);
      assert Apply(n, k).applied == n.log[..k] == s.committed[..k];
    }
  }

  lemma CaptureLocal(s: State, n: Node, k: nat)
    requires NodeOk(s.llog, n) && NodeCommitOk(s.commits, s.committed, n) && n.log in n.vers
    requires n.snap < k <= |n.applied| <= |n.log|
    ensures LocalOk(s, n, Capture(n, k))
  {
    CaptureStep(s.llog, n, k);
    HasShorter(n.log, s.committed, n.commit, k);
  }

  lemma RestartLocal(s: State, n: Node, v: nat, k: nat)
    requires NodeOk(s.llog, n) && NodeCommitOk(s.commits, s.committed, n) && Good(s.llog, s.committed)
    requires v < |n.vers| && RestartAt(n, n.vers[v], k)
    ensures LocalOk(s, n, Restart(n, n.vers[v], k))
  {
    RestartStep(s.llog, n, v, k);
    assert n.vers[v] in n.vers;
    RestartCommit(s, n, n.vers[v], k);
  }

  lemma FollowerLocal(s: State, n: Node, n': Node)
    requires NodeOk(s.llog, n) && NodeCommitOk(s.commits, s.committed, n)
    requires n.term <= n'.term && n' == n.(term := n'.term, role := Follower, vote := n'.vote)
    requires n'.term == n.term ==> n'.vote == n.vote
    ensures LocalOk(s, n, n')
  {
    TermStep(s.llog, n, n');
    KnownMore(s.commits, s.commits, n.commit, n.commit, n.term, n'.term);
  }

  lemma ApplyKeeps(s: State, s': State, i: Id, k: nat)
    requires Inv(s) && ApplyNext(s, i, k, s')
    ensures Inv(s')
  {
    At(s, i);
    ApplyLocal(s, s.nodes[i], k);
    LocalKeeps(s, i, Apply(s.nodes[i], k));
  }

  lemma CaptureKeeps(s: State, s': State, i: Id, k: nat)
    requires Inv(s) && CaptureNext(s, i, k, s')
    ensures Inv(s')
  {
    At(s, i);
    CaptureLocal(s, s.nodes[i], k);
    LocalKeeps(s, i, Capture(s.nodes[i], k));
  }

  lemma RestartKeeps(s: State, s': State, i: Id, v: nat, k: nat)
    requires Inv(s) && RestartNext(s, i, v, k, s')
    ensures Inv(s')
  {
    At(s, i);
    CommittedGood(s);
    RestartLocal(s, s.nodes[i], v, k);
    LocalKeeps(s, i, Restart(s.nodes[i], s.nodes[i].vers[v], k));
  }

  /** A server falls back to follower, in its term or a later one. */
  lemma FollowerKeeps(s: State, i: Id, n': Node)
    requires Inv(s) && i in s.voters && s.nodes[i].term <= n'.term
    requires n' == s.nodes[i].(term := n'.term, role := Follower, vote := n'.vote)
    requires n'.term == s.nodes[i].term ==> n'.vote == s.nodes[i].vote
    ensures Inv(Put(s, i, n'))
  {
    At(s, i);
    FollowerLocal(s, s.nodes[i], n');
    LocalKeeps(s, i, n');
  }

  /** A leader's peer table is updated with an acknowledgement of its term, or with
      an index it has committed. */
  lemma MatchedKeeps(s: State, i: Id, p: Id, k: nat)
    requires Inv(s) && i in s.voters && s.nodes[i].role == Leader
    requires Ack(s.nodes[i].term, p, k) in s.acks || k <= s.nodes[i].commit
    ensures Inv(Put(s, i, s.nodes[i].(matched := s.nodes[i].matched[p := Max(MatchedAt(s.nodes[i], p), k)])))
  {
    var n := s.nodes[i];
    var n' := n.(matched := n.matched[p := Max(MatchedAt(n, p), k)]);
    At(s, i);
    TermStep(s.llog, n, n');
    forall a | a in s.acks && a.node == i ensures AckOk(s.llog, n', a) {
      assert AckHeld(s, a);
      AckShrinks(s.llog, n, n', a);
    }
    PutKeeps(s, i, n');
  }

  lemma CountVoteInv(s: State, s': State, i: Id, m: Msg)
    requires Inv(s) && CountVoteNext(s, i, m, s')
    ensures Inv(s')
  {
    var n := s.nodes[i];
    var n' := n.(votes := n.votes + {m.voter});
    assert NodeOk(s.llog, n) && NodeCommitOk(s.commits, s.committed, n);
    TermStep(s.llog, n, n');
    CountVoteKeeps(s, s', i, m);
    forall a | a in s.acks && a.node == i ensures AckOk(s.llog, n', a) {
      assert AckHeld(s, a);
      AckShrinks(s.llog, n, n', a);
    }
    PutKeeps(s, i, n');
  }

  // ----- snapshots

  lemma InstallNodeOk(s: State, n: Node, data: Log)
    requires LeaderLogsOk(s.llog) && NodeOk(s.llog, n) && Good(s.llog, data) && data != [] && TermsUpTo(data, n.term)
    requires n.term in s.llog ==> Has(s.llog[n.term], data, |data|)
    ensures NodeOk(s.llog, Install(n, data))
  {
    var n' := Install(n, data);
    assert n.log in n.vers;
    InstallLog(s.llog, n, data);
    forall j | 0 < j <= |n.log| && n.log[j - 1].term == n.term ensures Has(n'.log, n.log, j) {
      assert Carries(s.llog, n.log, j);
      if j <= |data| {
        HasShorter(s.llog[n.term], data, |data|, j);
        assert n'.log[..j] == data[..j];
      } else {
        HasShorter(n.log, s.llog[n.term], j, |data|);
      }
    }
    RewrittenSync(s.llog, n, n');
    forall w | w in n'.waiters ensures WaiterOk(s.llog, n', w) { assert WaiterOk(s.llog, n, w); }
  }

  /** A candidate whose log an install replaces campaigned without something
      committed. */
  lemma InstallDooms(s: State, lc: Log, data: Log, c: Commit)
    requires c.term in s.llog && |data| <= c.index && Has(data, s.llog[c.term], |data|)
    requires !(|data| <= |lc| && Has(lc, data, |data|))
    ensures !Has(lc, s.llog[c.term], c.index)
  {
    if Has(lc, s.llog[c.term], c.index) {
      HasShorter(lc, s.llog[c.term], c.index, |data|);
      assert false;
    }
  }

  lemma InstallRole(s: State, s': State, i: Id, data: Log, c: Commit)
    requires i in s.nodes && RoleOk(s, i) && s' == Put(s, i, Install(s.nodes[i], data)) && Good(s.llog, s.nodes[i].log)
    requires data != [] && Good(s.llog, data) && c in s.commits && c.term in s.llog && c.term <= s.nodes[i].term
    requires |data| <= c.index && Has(data, s.llog[c.term], |data|)
    requires s.nodes[i].term in s.llog ==> Has(s.llog[s.nodes[i].term], data, |data|)
    ensures RoleOk(s', i)
    ensures s.nodes[i].role == Leader ==> Install(s.nodes[i], data).log == s.nodes[i].log
  {
    var n := s.nodes[i];
    InstallLog(s.llog, n, data);
    if n.role == Candidate && n.term !in s.llog {
      if s.cand[(n.term, i)] == n.log != Install(n, data).log { InstallDooms(s, n.log, data, c); }
      if Doomed(s, n.term, i) { DoomedStays(s, s', n.term, i); }
    }
  }

  /** Data that was committed by term `t` as far as it goes. */
  ghost predicate CommittedData(s: State, data: Log, t: nat) {
    data != [] && data <= s.committed && Known(s.commits, |data|, t)
  }

  lemma SnapshotFacts(s: State, i: Id, data: Log, t: nat) returns (c: Commit)
    requires Inv(s) && i in s.voters && CommittedData(s, data, t) && t <= s.nodes[i].term
    ensures Good(s.llog, data) && c in s.commits && c.term in s.llog && c.term <= s.nodes[i].term
    ensures |data| <= c.index && Has(data, s.llog[c.term], |data|) && TermsUpTo(data, s.nodes[i].term)
    ensures s.nodes[i].term in s.llog ==> Has(s.llog[s.nodes[i].term], data, |data|)
  {
    var n := s.nodes[i];
    c :| c in s.commits && c.term <= t && |data| <= c.index;
    assert CommitOk(s.llog, s.acks, s.voters, c);
    var q := s.llog[c.term];
    HasShorter(s.committed, q, c.index, |data|);
    assert data[..|data|] == data == s.committed[..|data|] == q[..|data|];
    GoodPrefix(s.llog, q, |data|);
    assert TermsUpTo(q, c.term);
    if n.term in s.llog {
      HistoryFromInv(s);
      CommittedInLeader(s, |data|, t, n.term);
    }
  }

  /** Installing committed data keeps the invariant. */
  lemma InstallDataInv(s: State, i: Id, data: Log, t: nat)
    requires Inv(s) && i in s.voters && CommittedData(s, data, t) && t <= s.nodes[i].term
    requires s.nodes[i].snap < |data| && |s.nodes[i].applied| < |data|
    ensures Inv(Put(s, i, Install(s.nodes[i], data)))
  {
    var n := s.nodes[i];
    var n' := Install(n, data);
    var s' := Put(s, i, n');
    At(s, i);
    var c := SnapshotFacts(s, i, data, t);
    InstallNodeOk(s, n, data);
    InstallRole(s, s', i, data, c);
    HistoryFromInv(s);
    forall a | a in s.acks && a.node == i ensures AckOk(s.llog, n', a) {
      assert AckHeld(s, a);
      forall k: nat | OwnEntry(s.llog, a.term, k) && k <= a.upTo ensures Kept(s.llog, n', a.term, k) {
        assert Kept(s.llog, n, a.term, k);
        InstallKeeps(s, n, data, c, a.term, k);
      }
    }
    InstallCommit(s, n, data, t);
    MatchedFrame(s, s', i);
    PutKeeps(s, i, n');
  }

  lemma InstallKeepsInv(s: State, s': State, i: Id, m: Msg)
    requires Inv(s) && InstallNext(s, i, m, s')
    ensures Inv(s')
  {
    InstallDataInv(s, i, m.data, m.term);
  }

  /** The state machine's own record reaches past the snapshot. */
  lemma TrustedLocal(s: State, n: Node, applied: Log)
    requires NodeOk(s.llog, n) && NodeCommitOk(s.commits, s.committed, n) && n.role == Follower && Good(s.llog, s.committed)
    requires applied <= s.committed && n.snap <= |applied| && Known(s.commits, |applied|, n.term)
    requires |applied| > |n.log| || TermAt(n.log, |applied|) == TermAt(applied, |applied|)
    ensures LocalOk(s, n, n.(commit := |applied|, applied := applied))
  {
    var k, n' := |applied|, n.(commit := |applied|, applied := applied);
    TermStep(s.llog, n, n');
    assert n.log in n.vers by { assert n.vers[|n.vers| - 1] == n.log; }
    if 0 < k <= |n.log| {
      assert applied[k - 1] == s.committed[k - 1];
      LogMatching(s.llog, n.log, s.committed, k);
    }
  }

  lemma OwnData(s: State, i: Id, data: Log)
    requires Inv(s) && i in s.voters && SnapshotInPlace(s, s.nodes[i], data)
    ensures CommittedData(s, data, s.nodes[i].term)
  {
    var n := s.nodes[i];
    At(s, i);
    if data <= n.applied {
      KnownMore(s.commits, s.commits, n.commit, |data|, n.term, n.term);
    } else {
      var m :| m in s.msgs && m.SnapReq? && m.term <= n.term && m.data == data;
      KnownMore(s.commits, s.commits, |data|, |data|, m.term, n.term);
    }
  }

  /** A crash between the rename of a snapshot and the rewrite of the log file keeps the
      invariant, if the log file ends within the snapshot or agrees with it. */
  lemma ReloadKeeps(s: State, s': State, i: Id, v: nat, data: Log, k: nat)
    requires Inv(s) && ReloadNext(s, i, v, data, k, s')
    ensures Inv(s')
  {
    var n, w := s.nodes[i], s.nodes[i].vers[v];
    At(s, i);
    OwnData(s, i, data);
    var s1 := Put(s, i, Restart(n, w, n.snap));
    RestartStep(s.llog, n, v, n.snap);
    RestartKeeps(s, s1, i, v, n.snap);
    InstallDataInv(s1, i, data, n.term);
    var s2 := Put(s1, i, Install(s1.nodes[i], data));
    PutPut(s, i, s1.nodes[i], s2.nodes[i]);
    if k > |data| {
      At(s2, i);
      CommittedGood(s2);
      assert n.applied[..k] <= s.committed && TermAt(n.applied, k) == TermAt(n.applied[..k], k);
      KnownMore(s.commits, s.commits, n.commit, k, n.term, n.term);
      TrustedLocal(s2, s2.nodes[i], n.applied[..k]);
      LocalKeeps(s2, i, Reload(n, w, data, k));
      PutPut(s, i, s2.nodes[i], Reload(n, w, data, k));
    }
  }

  // ----- steps that send a request

  lemma RequestKeeps(s: State, s': State, i: Id, m: Msg)
    requires Inv(s) && i in s.voters && ((m.AppendReq? && m.read.None?) || m.SnapReq?)
    requires s' == Send(s, m) && RequestsOk(s')
    ensures Inv(s')
  {
    SameIsGrown(s.llog);
    FencesFrame(s, s');
    assert s'.nodes == s.nodes[i := s.nodes[i]];
    StillKeeps(s, s', i);
  }

  /** What a leader sends is a piece of its term's leader log. */
  lemma LeaderRequest(s: State, i: Id, prev: nat, count: nat)
    requires i in s.nodes && RoleOk(s, i) && NodeCommitOk(s.commits, s.committed, s.nodes[i])
    requires s.nodes[i].role == Leader && prev + count <= |s.nodes[i].log|
    ensures var n := s.nodes[i];
      AppendOk(s.llog, s.commits, s.committed, AppendArgs(n.term, prev, TermAt(n.log, prev), n.log[prev..prev + count], n.commit))
  {}

  lemma SendAppendKeeps(s: State, s': State, i: Id, prev: nat, count: nat)
    requires Inv(s) && SendAppendNext(s, i, prev, count, s')
    ensures Inv(s')
  {
    var n := s.nodes[i];
    At(s, i);
    LeaderRequest(s, i, prev, count);
    RequestKeeps(s, s', i, AppendReq(AppendArgs(n.term, prev, TermAt(n.log, prev), n.log[prev..prev + count], n.commit), None));
  }

  lemma SendSnapshotKeeps(s: State, s': State, i: Id)
    requires Inv(s) && SendSnapshotNext(s, i, s')
    ensures Inv(s')
  {
    var n := s.nodes[i];
    assert NodeCommitOk(s.commits, s.committed, n);
    KnownMore(s.commits, s.commits, n.commit, n.snap, n.term, n.term);
    RequestKeeps(s, s', i, SnapReq(n.term, n.log[..n.snap]));
  }

  // ----- elections

  /** The groups a vote does not touch. */
  lemma VoteRest(s: State, s': State, i: Id, n': Node)
    requires MatchedOk(s) && CommitsOk(s) && RequestsOk(s) && FencesOk(s)
    requires i in s.nodes && s'.nodes == s.nodes[i := n'] && s'.voters == s.voters && s'.llog == s.llog
    requires s'.acks == s.acks && s'.commits == s.commits && s'.committed == s.committed && s'.fences == s.fences
    requires forall m :: m in s'.msgs && !m.VoteReq? && !m.VoteRsp? ==> m in s.msgs
    requires NodeCommitOk(s.commits, s.committed, n')
    requires n'.role == Leader ==> s.nodes[i] == n'.(vote := s.nodes[i].vote)
    ensures MatchedOk(s') && CommitsOk(s') && RequestsOk(s') && FencesOk(s')
  {
    SameIsGrown(s.llog);
    MatchedFrame(s, s', i);
    RequestsGrow(s, s');
    FencesFrame(s, s');
  }

  lemma StartElectionNode(s: State, n: Node, i: Id)
    requires NodeOk(s.llog, n) && NodeCommitOk(s.commits, s.committed, n)
    ensures NodeOk(s.llog, StartElection(n, i)) && NodeCommitOk(s.commits, s.committed, StartElection(n, i))
  {
    TermStep(s.llog, n, StartElection(n, i));
    KnownMore(s.commits, s.commits, n.commit, n.commit, n.term, n.term + 1);
  }

  lemma StartElectionRest(s: State, s': State, i: Id)
    requires NodesOk(s) && MatchedOk(s) && CommitsOk(s) && RequestsOk(s) && FencesOk(s) && StartElectionNext(s, i, s')
    requires NodeOk(s.llog, s.nodes[i]) && NodeCommitOk(s.commits, s.committed, s.nodes[i])
    ensures NodesOk(s') && MatchedOk(s') && CommitsOk(s') && RequestsOk(s') && FencesOk(s')
  {
    var n' := StartElection(s.nodes[i], i);
    StartElectionNode(s, s.nodes[i], i);
    NodesPut(s, s', i, n');
    VoteRest(s, s', i, n');
  }

  lemma StartElectionInv(s: State, s': State, i: Id)
    requires Inv(s) && StartElectionNext(s, i, s')
    ensures Inv(s')
  {
    At(s, i);
    StartElectionKeeps(s, s', i);
    StartElectionAcks(s, s', i);
    StartElectionRest(s, s', i);
  }

  lemma VoteNode(s: State, n: Node, a: VoteArgs)
    requires NodeOk(s.llog, n) && NodeCommitOk(s.commits, s.committed, n)
    ensures var n' := HandleRequestVote(n, s.voters, a).0;
      && NodeOk(s.llog, n') && NodeCommitOk(s.commits, s.committed, n')
      && (n'.role == Leader ==> n == n'.(vote := n.vote))
  {
    var n' := HandleRequestVote(n, s.voters, a).0;
    TermStep(s.llog, n, n');
    KnownMore(s.commits, s.commits, n.commit, n.commit, n.term, n'.term);
  }

  lemma VoteInv(s: State, s': State, i: Id, m: Msg)
    requires Inv(s) && VoteNext(s, i, m, s')
    ensures Inv(s')
  {
    var n' := HandleRequestVote(s.nodes[i], s.voters, m.vote).0;
    At(s, i);
    VoteNode(s, s.nodes[i], m.vote);
    NodesPut(s, s', i, n');
    VoteKeeps(s, s', i, m);
    VoteAcks(s, s', i, m);
    VoteRest(s, s', i, n');
  }

  lemma NodesLead(s: State, s': State, i: Id, kind: Kind, command: seq<Byte>)
    requires NodesOk(s) && i in s.voters && Grown(s.llog, s'.llog) && LeaderLogsOk(s'.llog) && s'.voters == s.voters
    requires i in s'.nodes && s'.nodes == s.nodes[i := s'.nodes[i]] && s.nodes[i].term >= 1
    requires s.nodes[i].term in s'.llog && s'.llog[s.nodes[i].term] == AppendOwn(s.nodes[i], kind, command).log
    requires NodeOk(s'.llog, AppendOwn(s.nodes[i], kind, command)) ==> NodeOk(s'.llog, s'.nodes[i])
    ensures NodesOk(s')
  {
    assert NodeOk(s.llog, s.nodes[i]);
    AppendOwnStep(s.llog, s'.llog, s.nodes[i], kind, command);
    forall j | j in s'.voters ensures NodeOk(s'.llog, s'.nodes[j]) {
      if j != i { assert NodeOk(s.llog, s.nodes[j]); GrownStep(s.llog, s'.llog, s.nodes[j]); }
    }
  }

  lemma SubmitInv(s: State, s': State, i: Id, kind: Kind, command: seq<Byte>)
    requires Inv(s) && SubmitNext(s, i, kind, command, s')
    ensures Inv(s')
  {
    var n := s.nodes[i];
    var n' := s'.nodes[i];
    assert RoleOk(s, i) && NodeOk(s.llog, n) && n.log in n.vers && NodeCommitOk(s.commits, s.committed, n);
    LeaderTermPositive(s, i);
    LeaderLogsAppend(s.llog, n.term, n.log, n'.log[|n.log|]);
    SubmitKeeps(s, s', i, kind, command);
    NodesLead(s, s', i, kind, command);
    forall t | t in s.llog ensures t in s.elect { assert ElectOk(s, t); }
    AppendsAcks(s, s', i, n'.log);
    HasExtend(n.log, n'.log, s.committed, n.snap);
    HasExtend(n.log, n'.log, s.committed, n.commit);
    CommitsGrown(s, s', i, n'.log);
    MatchedFrame(s, s', i);
    RequestsGrow(s, s');
    FencesFrame(s, s');
  }

  /** A candidate with a majority holds what was committed before it. */
  lemma WinnerHolds(s: State, i: Id, c: Commit)
    requires ElectionsOk(s) && AcksOk(s) && CommitsOk(s) && NodesOk(s) && i in s.nodes && c in s.commits
    requires s.nodes[i].role == Candidate && QuorumSize(|s.nodes[i].votes|, s.voters)
    ensures c.term != s.nodes[i].term && (c.term < s.nodes[i].term ==> c.index <= |s.nodes[i].log|)
  {
    WinnerIsFirst(s, i);
    assert CommitOk(s.llog, s.acks, s.voters, c);
    if c.term < s.nodes[i].term {
      WinnerLog(s, i);
      WinnerHasCommitted(s, i, c);
    }
  }

  lemma WinnerVoters(s: State, i: Id, v: Id)
    requires ElectionsOk(s) && AcksOk(s) && CommitsOk(s) && NodesOk(s) && i in s.nodes
    requires s.nodes[i].role == Candidate && QuorumSize(|s.nodes[i].votes|, s.voters)
    requires v in s.nodes[i].votes
    ensures VoterKnew(s.llog, s.acks, s.nodes[i].term, v, s.nodes[i].log)
  {
    WinnerIsFirst(s, i);
    WinnerLog(s, i);
    assert RoleOk(s, i);
    assert VoteKnew(s, VoteRsp(s.nodes[i].term, v, i));
  }

  lemma BecomeLeaderAcks(s: State, s': State, i: Id)
    requires ElectionsOk(s) && AcksOk(s) && CommitsOk(s) && NodesOk(s) && BecomeLeaderNext(s, i, s')
    requires Appends(s, s', i, s'.nodes[i].log)
    ensures AcksOk(s')
  {
    var n := s.nodes[i];
    WinnerIsFirst(s, i);
    forall t | t in s.llog ensures t in s.elect { assert ElectOk(s, t); }
    forall v | v in n.votes ensures VoterKnew(s.llog, s.acks, n.term, v, n.log) { WinnerVoters(s, i, v); }
    AppendsAcks(s, s', i, s'.nodes[i].log);
  }

  lemma BecomeLeaderCommit(s: State, s': State, i: Id)
    requires ElectionsOk(s) && AcksOk(s) && CommitsOk(s) && NodesOk(s) && BecomeLeaderNext(s, i, s')
    requires Appends(s, s', i, s'.nodes[i].log)
    ensures CommitsOk(s')
  {
    var n := s.nodes[i];
    var n' := s'.nodes[i];
    assert NodeCommitOk(s.commits, s.committed, n);
    forall c | c in s.commits ensures c.term != n.term && (c.term < n.term ==> c.index <= |n.log|) { WinnerHolds(s, i, c); }
    HasExtend(n.log, n'.log, s.committed, n.snap);
    HasExtend(n.log, n'.log, s.committed, n.commit);
    CommitsGrown(s, s', i, n'.log);
  }

  lemma BecomeLeaderNodes(s: State, s': State, i: Id)
    requires NodesOk(s) && BecomeLeaderNext(s, i, s') && s.nodes[i].term >= 1
    requires Grown(s.llog, s'.llog) && LeaderLogsOk(s'.llog)
    ensures NodesOk(s')
  {
    var n := s.nodes[i];
    var n1 := AppendOwn(n, Normal, []);
    if NodeOk(s'.llog, n1) { TermStep(s'.llog, n1, s'.nodes[i]); }
    NodesLead(s, s', i, Normal, []);
  }

  lemma BecomeLeaderInv(s: State, s': State, i: Id)
    requires Inv(s) && BecomeLeaderNext(s, i, s')
    ensures Inv(s')
  {
    var n := s.nodes[i];
    var n' := s'.nodes[i];
    At(s, i);
    WinnerLog(s, i);
    BecomeLeaderKeeps(s, s', i);
    LeaderLogsAppend(s.llog, n.term, n.log, n'.log[|n.log|]);
    BecomeLeaderNodes(s, s', i);
    BecomeLeaderAcks(s, s', i);
    BecomeLeaderCommit(s, s', i);
    RequestsGrow(s, s');
    FencesFrame(s, s');
  }

  // ----- commit

  lemma LeaderSelfAck(s: State, i: Id)
    requires Inv(s) && i in s.voters && s.nodes[i].role == Leader
    ensures AckOk(s.llog, s.nodes[i], Ack(s.nodes[i].term, i, s.nodes[i].durable))
  {
    assert RoleOk(s, i) && NodeOk(s.llog, s.nodes[i]);
    AckNew(s.llog, s.nodes[i], i, s.nodes[i].durable);
  }

  lemma CommitInv(s: State, s': State, i: Id, k: nat)
    requires Inv(s) && CommitNext(s, i, k, s')
    ensures Inv(s') && s.committed <= s'.committed
  {
    var n := s.nodes[i];
    var n' := n.(commit := k);
    SameIsGrown(s.llog);
    assert NodeOk(s.llog, n) && RoleOk(s, i);
    TermStep(s.llog, n, n');
    NodesPut(s, s', i, n');
    RoleKept(s, s', i, n');
    ElectionsFrame(s, s', i, n');
    LeaderSelfAck(s, i);
    var a := Ack(n.term, i, n.durable);
    var s1 := s'.(acks := s.acks);
    RoleKept(s, s1, i, n');
    ElectionsFrame(s, s1, i, n');
    AcksShrink(s, s1, i, n');
    AckShrinks(s.llog, n, n', a);
    AckAdded(s1, s', a);
    CommitCommits(s, s', i, k);
    MatchedFrame(s, s', i);
    RequestsGrow(s, s');
    FencesFrame(s, s');
  }
}
