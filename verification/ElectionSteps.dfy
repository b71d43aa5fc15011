/** Votes, campaigns and leaders: what every step keeps of `ElectionsOk`. */
module ElectionSteps {
  import opened Basics
  import opened RaftLog
  import opened RaftNodeSpec
  import opened Cluster
  import opened Invariant
  import opened Completeness

  /** Server `i` became `n'`; no campaign started and no leader log changed. */
  ghost predicate OneNode(s: State, s': State, i: Id, n': Node) {
    && i in s.nodes && s'.nodes == s.nodes[i := n']
    && s'.voters == s.voters && s'.llog == s.llog && s'.elect == s.elect && s'.cand == s.cand
    && s.commits <= s'.commits && s.msgs <= s'.msgs
  }

  ghost predicate NoVotes(s: State, s': State) {
    forall m :: m in s'.msgs && (m.VoteReq? || m.VoteRsp?) ==> m in s.msgs
  }

  ghost predicate KeepsVote(n: Node, n': Node) {
    && n.term <= n'.term
    && (n'.term == n.term ==> n'.vote == n.vote)
    && (n'.role == Candidate ==> n.role == Candidate && n'.term == n.term)
  }

  lemma DoomedStays(s: State, s': State, t: nat, i: Id)
    requires Doomed(s, t, i) && s.commits <= s'.commits && s'.llog == s.llog && s'.cand == s.cand
    ensures Doomed(s', t, i)
  {
    var c :| c in s.commits && c.term < t && c.term in s.llog && (t, i) in s.cand
      && !Has(s.cand[(t, i)], s.llog[c.term], c.index);
    assert c in s'.commits;
  }

  lemma ElectionsRest(s: State, s': State, i: Id, n': Node)
    requires ElectionsOk(s) && OneNode(s, s', i, n') && RoleOk(s', i)
    requires s.nodes[i].term <= n'.term && (n'.role == Candidate ==> s.nodes[i].role == Candidate && n'.term == s.nodes[i].term)
    requires forall m :: m in s'.msgs ==> VoteBinds(s', m) && VoteReqOk(s', m)
    ensures ElectionsOk(s')
  {
    forall t, j | (t, j) in s'.cand ensures CandOk(s', t, j) { assert CandOk(s, t, j); }
    forall t | t in s'.llog ensures ElectOk(s', t) { assert ElectOk(s, t); }
    forall j | j in s'.nodes ensures RoleOk(s', j) {
      if j != i { RoleElsewhere(s, s', j); }
    }
  }

  lemma ElectionsFrame(s: State, s': State, i: Id, n': Node)
    requires ElectionsOk(s) && OneNode(s, s', i, n') && NoVotes(s, s') && KeepsVote(s.nodes[i], n') && RoleOk(s', i)
    ensures ElectionsOk(s')
  {
    forall m | m in s'.msgs ensures VoteBinds(s', m) && VoteReqOk(s', m) {
      if m in s.msgs { assert VoteBinds(s, m) && VoteReqOk(s, m); }
    }
    ElectionsRest(s, s', i, n');
  }

  lemma RoleElsewhere(s: State, s': State, j: Id)
    requires RoleOk(s, j) && j in s.nodes && j in s'.nodes && s'.nodes[j] == s.nodes[j]
    requires s'.llog == s.llog && s'.elect == s.elect && s'.cand == s.cand
    requires s.commits <= s'.commits && s.msgs <= s'.msgs
    ensures RoleOk(s', j)
  {
    if Doomed(s, s.nodes[j].term, j) { DoomedStays(s, s', s.nodes[j].term, j); }
  }

  /** A server that fell back to follower, or kept role, term, log and votes. */
  lemma RoleKept(s: State, s': State, i: Id, n': Node)
    requires RoleOk(s, i) && OneNode(s, s', i, n')
    requires n'.role == Follower || (n'.role == s.nodes[i].role && n'.term == s.nodes[i].term
                                     && n'.log == s.nodes[i].log && n'.votes == s.nodes[i].votes)
    ensures RoleOk(s', i)
  {
    if Doomed(s, s.nodes[i].term, i) { DoomedStays(s, s', s.nodes[i].term, i); }
  }

  // ----- campaigns and votes

  lemma StartElectionVotes(s: State, s': State, i: Id, m: Msg)
    requires ElectionsOk(s) && StartElectionNext(s, i, s') && m in s'.msgs
    ensures VoteBinds(s', m) && VoteReqOk(s', m)
  {
    var t := s.nodes[i].term + 1;
    assert (t, i) !in s.cand by { assert CandOk(s, t, i); }
    if m in s.msgs {
      assert VoteBinds(s, m) && VoteReqOk(s, m);
    } else {
      forall m' | m' in s.msgs && m'.VoteRsp? && m'.term == t ensures m'.voter != i { assert VoteBinds(s, m'); }
    }
  }

  lemma StartElectionKeeps(s: State, s': State, i: Id)
    requires ElectionsOk(s) && NodesOk(s) && StartElectionNext(s, i, s')
    ensures ElectionsOk(s')
  {
    var n := s.nodes[i];
    var t := n.term + 1;
    assert (t, i) !in s.cand by { assert CandOk(s, t, i); }
    forall m | m in s'.msgs ensures VoteBinds(s', m) && VoteReqOk(s', m) { StartElectionVotes(s, s', i, m); }
    forall u, j | (u, j) in s'.cand ensures CandOk(s', u, j) {
      if (u, j) in s.cand { assert CandOk(s, u, j); } else { assert NodeOk(s.llog, n) && n.log in n.vers; }
    }
    forall u | u in s'.llog ensures ElectOk(s', u) { assert ElectOk(s, u); }
    forall j | j in s'.nodes ensures RoleOk(s', j) {
      if j != i {
        assert RoleOk(s, j);
        if Doomed(s, s.nodes[j].term, j) { StartElectionDoomed(s, s', i, s.nodes[j].term, j); }
      }
    }
  }

  lemma StartElectionDoomed(s: State, s': State, i: Id, t: nat, j: Id)
    requires Doomed(s, t, j) && StartElectionNext(s, i, s') && (t, j) != (s.nodes[i].term + 1, i)
    ensures Doomed(s', t, j)
  {
    var c :| c in s.commits && c.term < t && c.term in s.llog && (t, j) in s.cand
      && !Has(s.cand[(t, j)], s.llog[c.term], c.index);
    assert c in s'.commits;
  }

  lemma VoteVotes(s: State, s': State, i: Id, m: Msg, o: Msg)
    requires ElectionsOk(s) && VoteNext(s, i, m, s') && o in s'.msgs
    ensures VoteBinds(s', o) && VoteReqOk(s', o)
  {
    var (n', r) := HandleRequestVote(s.nodes[i], s.voters, m.vote);
    assert VoteReqOk(s, m);
    if o in s.msgs {
      assert VoteBinds(s, o) && VoteReqOk(s, o);
    } else {
      forall o' | o' in s.msgs && o'.VoteRsp? && o'.term == n'.term && o'.voter == i
        ensures o'.candidate == m.vote.candidate
      {
        assert VoteBinds(s, o');
      }
    }
  }

  lemma VoteKeeps(s: State, s': State, i: Id, m: Msg)
    requires ElectionsOk(s) && VoteNext(s, i, m, s')
    ensures ElectionsOk(s')
  {
    forall o | o in s'.msgs ensures VoteBinds(s', o) && VoteReqOk(s', o) { VoteVotes(s, s', i, m, o); }
    RoleKept(s, s', i, s'.nodes[i]);
    ElectionsRest(s, s', i, s'.nodes[i]);
  }

  lemma CountVoteKeeps(s: State, s': State, i: Id, m: Msg)
    requires ElectionsOk(s) && CountVoteNext(s, i, m, s')
    ensures ElectionsOk(s')
  {
    assert RoleOk(s, i);
    var n' := s'.nodes[i];
    if Doomed(s, n'.term, i) { DoomedStays(s, s', n'.term, i); }
    ElectionsFrame(s, s', i, n');
  }

  // ----- winning

  lemma VotedOnce(s: State, t: nat, v: Id, c: Id, d: Id)
    requires ElectionsOk(s) && VoteRsp(t, v, c) in s.msgs && VoteRsp(t, v, d) in s.msgs
    ensures c == d
  {
    assert VoteBinds(s, VoteRsp(t, v, c));
  }

  /** Election safety: a candidate with a majority is alone in its term. */
  lemma WinnerIsFirst(s: State, i: Id)
    requires ElectionsOk(s) && NodesOk(s) && i in s.nodes
    requires s.nodes[i].role == Candidate && QuorumSize(|s.nodes[i].votes|, s.voters)
    ensures s.nodes[i].term !in s.llog && IsQuorum(s.nodes[i].votes, s.voters)
  {
    var n := s.nodes[i];
    assert RoleOk(s, i);
    forall v | v in n.votes ensures v in s.voters { assert VoteBinds(s, VoteRsp(n.term, v, i)); }
    if n.term in s.llog {
      assert ElectOk(s, n.term);
      var v := QuorumsMeet(n.votes, s.elect[n.term].quorum, s.voters);
      VotedOnce(s, n.term, v, i, s.elect[n.term].leader);
      assert false;
    }
  }

  /** A campaign log that lacks a committed index cannot win: some voter of the
      majority had acknowledged that index. */
  lemma WinnerHasCommitted(s: State, i: Id, c: Commit)
    requires ElectionsOk(s) && AcksOk(s) && CommitsOk(s) && NodesOk(s) && i in s.nodes
    requires s.nodes[i].role == Candidate && QuorumSize(|s.nodes[i].votes|, s.voters)
    requires c in s.commits && c.term < s.nodes[i].term
    ensures c.term in s.llog && (s.nodes[i].term, i) in s.cand
    ensures Has(s.cand[(s.nodes[i].term, i)], s.llog[c.term], c.index)
  {
    var n := s.nodes[i];
    WinnerIsFirst(s, i);
    HistoryFromInv(s);
    assert RoleOk(s, i);
    assert CommitOk(s.llog, s.acks, s.voters, c);
    var v := QuorumsMeet(c.quorum, n.votes, s.voters);
    assert VoteRsp(n.term, v, i) in s.msgs;
    assert HasAck(s.acks, c.term, v, c.index);
    var a :| a in s.acks && a.term == c.term && a.node == v && c.index <= a.upTo;
    assert VoteKnew(s, VoteRsp(n.term, v, i));
    if !Has(s.cand[(n.term, i)], s.llog[c.term], c.index) {
      var w :| w in s.llog && c.term < w <= n.term - 1 && !Has(s.llog[w], s.llog[c.term], c.index);
      LeaderCompleteness(s, c, w);
      assert false;
    }
  }

  lemma WinnerLog(s: State, i: Id)
    requires ElectionsOk(s) && AcksOk(s) && CommitsOk(s) && NodesOk(s) && i in s.nodes
    requires s.nodes[i].role == Candidate && QuorumSize(|s.nodes[i].votes|, s.voters)
    ensures (s.nodes[i].term, i) in s.cand && s.cand[(s.nodes[i].term, i)] == s.nodes[i].log
    ensures s.nodes[i].term > 0
  {
    var n := s.nodes[i];
    WinnerIsFirst(s, i);
    assert RoleOk(s, i);
    if Doomed(s, n.term, i) {
      var c :| c in s.commits && c.term < n.term && c.term in s.llog && (n.term, i) in s.cand
        && !Has(s.cand[(n.term, i)], s.llog[c.term], c.index);
      WinnerHasCommitted(s, i, c);
      assert false;
    }
  }

  // ----- leader logs grow

  /** A leader appended: `llog` of its term and its own log became `log'`. */
  ghost predicate Appends(s: State, s': State, i: Id, log': Log) {
    && i in s.nodes && s'.nodes.Keys == s.nodes.Keys && s'.nodes == s.nodes[i := s'.nodes[i]]
    && s'.llog == s.llog[s.nodes[i].term := log'] && Grown(s.llog, s'.llog)
    && s'.nodes[i].log == log' && s.nodes[i].log <= log'
    && s'.nodes[i].term == s.nodes[i].term && s'.nodes[i].vote == s.nodes[i].vote
    && s'.nodes[i].role == Leader
    && s'.voters == s.voters && s'.cand == s.cand && s'.msgs == s.msgs && s'.commits == s.commits
  }

  lemma DoomedGrown(s: State, s': State, t: nat, j: Id)
    requires Doomed(s, t, j) && Grown(s.llog, s'.llog) && s'.cand == s.cand && s'.commits == s.commits
    requires forall c :: c in s.commits ==> CommitOk(s.llog, s.acks, s.voters, c)
    ensures Doomed(s', t, j)
  {
    var c :| c in s.commits && c.term < t && c.term in s.llog && (t, j) in s.cand
      && !Has(s.cand[(t, j)], s.llog[c.term], c.index);
    assert CommitOk(s.llog, s.acks, s.voters, c);
    HasGrownRight(s.cand[(t, j)], s.llog[c.term], s'.llog[c.term], c.index);
    assert c in s'.commits;
  }

  lemma AppendsKeeps(s: State, s': State, i: Id, log': Log)
    requires ElectionsOk(s) && Appends(s, s', i, log')
    requires forall c :: c in s.commits ==> CommitOk(s.llog, s.acks, s.voters, c)
    requires forall t :: t in s.llog ==> t in s'.elect && t in s.elect && s'.elect[t] == s.elect[t]
    requires s.nodes[i].term in s'.elect && s'.elect[s.nodes[i].term].leader == i
    requires ElectOk(s', s.nodes[i].term)
    requires forall t :: t in s.elect && t in s.llog && t == s.nodes[i].term ==> s.elect[t].leader == i
    ensures ElectionsOk(s')
  {
    var u := s.nodes[i].term;
    forall m | m in s'.msgs ensures VoteBinds(s', m) && VoteReqOk(s', m) {
      assert VoteBinds(s, m) && VoteReqOk(s, m);
    }
    forall t, j | (t, j) in s'.cand ensures CandOk(s', t, j) {
      assert CandOk(s, t, j);
      GoodGrown(s.llog, s'.llog, s.cand[(t, j)]);
    }
    forall t | t in s'.llog ensures ElectOk(s', t) {
      if t != u { assert ElectOk(s, t); }
    }
    forall j | j in s'.nodes ensures RoleOk(s', j) { AppendsRole(s, s', i, log', j); }
  }

  lemma AppendsRole(s: State, s': State, i: Id, log': Log, j: Id)
    requires ElectionsOk(s) && Appends(s, s', i, log') && j in s'.nodes
    requires forall c :: c in s.commits ==> CommitOk(s.llog, s.acks, s.voters, c)
    requires forall t :: t in s.llog ==> t in s'.elect && t in s.elect && s'.elect[t] == s.elect[t]
    requires s.nodes[i].term in s'.elect && s'.elect[s.nodes[i].term].leader == i
    requires forall t :: t in s.elect && t in s.llog && t == s.nodes[i].term ==> s.elect[t].leader == i
    ensures RoleOk(s', j)
  {
    assert RoleOk(s, j);
    if j != i && Doomed(s, s.nodes[j].term, j) { DoomedGrown(s, s', s.nodes[j].term, j); }
  }

  lemma SubmitKeeps(s: State, s': State, i: Id, kind: Kind, command: seq<Byte>)
    requires ElectionsOk(s) && NodesOk(s) && SubmitNext(s, i, kind, command, s')
    requires forall c :: c in s.commits ==> CommitOk(s.llog, s.acks, s.voters, c)
    ensures ElectionsOk(s')
  {
    var n := s.nodes[i];
    var n' := s'.nodes[i];
    assert RoleOk(s, i) && ElectOk(s, n.term);
    assert NodeOk(s.llog, n) && n.log in n.vers;
    LeaderTermPositive(s, i);
    LeaderLogsAppend(s.llog, n.term, n.log, n'.log[|n.log|]);
    forall t | t in s.llog ensures t in s.elect { assert ElectOk(s, t); }
    AppendsKeeps(s, s', i, n'.log);
  }

  lemma LeaderTermPositive(s: State, i: Id)
    requires ElectionsOk(s) && i in s.nodes && s.nodes[i].role == Leader
    ensures s.nodes[i].term > 0
  {
    assert RoleOk(s, i) && ElectOk(s, s.nodes[i].term);
    assert CandOk(s, s.nodes[i].term, s.elect[s.nodes[i].term].leader);
  }

  lemma BecomeLeaderKeeps(s: State, s': State, i: Id)
    requires ElectionsOk(s) && AcksOk(s) && CommitsOk(s) && NodesOk(s) && BecomeLeaderNext(s, i, s')
    ensures ElectionsOk(s') && s.nodes[i].term !in s.llog && Grown(s.llog, s'.llog)
  {
    var n := s.nodes[i];
    var n' := s'.nodes[i];
    WinnerIsFirst(s, i);
    WinnerLog(s, i);
    assert NodeOk(s.llog, n) && n.log in n.vers;
    LeaderLogsAppend(s.llog, n.term, n.log, n'.log[|n.log|]);
    forall t | t in s.llog ensures t in s.elect { assert ElectOk(s, t); }
    assert RoleOk(s, i);
    AppendsKeeps(s, s', i, n'.log);
  }
}
