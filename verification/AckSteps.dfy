/** Acknowledgements: what a server once reported durable stays on it, and a voter
    passes it on to the leaders it elects. */
module AckSteps {
  import opened Basics
  import opened RaftLog
  import opened RaftNodeSpec
  import opened Cluster
  import opened Invariant
  import opened Completeness
  import opened NodeSteps
  import opened ElectionSteps

  lemma LostLater(ll: LeaderLogs, t: nat, k: nat, u: nat, u': nat)
    requires LostBy(ll, t, k, u) && u <= u'
    ensures LostBy(ll, t, k, u')
  {
    var w :| w in ll && t in ll && t < w <= u && !Has(ll[w], ll[t], k);
    assert w <= u';
  }

  lemma LostGrown(ll: LeaderLogs, ll': LeaderLogs, t: nat, k: nat, u: nat)
    requires LostBy(ll, t, k, u) && OwnEntry(ll, t, k) && Grown(ll, ll')
    ensures LostBy(ll', t, k, u)
  {
    var w :| w in ll && t in ll && t < w <= u && !Has(ll[w], ll[t], k);
    LacksStable(ll, ll', t, w, k);
    assert w in ll';
  }

  // ----- one acknowledgement

  /** Fewer logs a crash may leave, and no earlier term. */
  lemma AckShrinks(ll: LeaderLogs, n: Node, n': Node, a: Ack)
    requires AckOk(ll, n, a) && n.term <= n'.term && (forall v :: v in n'.vers ==> v in n.vers)
    ensures AckOk(ll, n', a)
  {
    forall k: nat | OwnEntry(ll, a.term, k) && k <= a.upTo ensures Kept(ll, n', a.term, k) {
      assert Kept(ll, n, a.term, k);
      if !AllHave(n.vers, ll[a.term], k) { LostLater(ll, a.term, k, n.term, n'.term); }
    }
  }

  lemma AckReplaces(ll: LeaderLogs, n: Node, n': Node, x: nat, target: nat, a: Ack)
    requires LeaderLogsOk(ll) && NodeOk(ll, n) && Replaces(ll, n, n', x, target) && AckOk(ll, n, a)
    ensures AckOk(ll, n', a)
  {
    forall k: nat | OwnEntry(ll, a.term, k) && k <= a.upTo ensures Kept(ll, n', a.term, k) {
      assert Kept(ll, n, a.term, k);
      ReplacesKeeps(ll, n, n', x, target, a.term, k);
    }
  }

  lemma AckGrown(ll: LeaderLogs, ll': LeaderLogs, n: Node, n': Node, a: Ack)
    requires AckOk(ll, n, a) && Grown(ll, ll') && n'.term == n.term
    requires forall log, k :: AllHave(n.vers, log, k) ==> AllHave(n'.vers, log, k)
    ensures AckOk(ll', n', a)
  {
    forall k: nat | OwnEntry(ll', a.term, k) && k <= a.upTo ensures Kept(ll', n', a.term, k) {
      assert OwnEntry(ll, a.term, k);
      assert Kept(ll, n, a.term, k);
      if AllHave(n.vers, ll[a.term], k) {
        assert AllHave(n'.vers, ll[a.term], k);
        forall v | v in n'.vers ensures Has(v, ll'[a.term], k) { HasGrownRight(v, ll[a.term], ll'[a.term], k); }
      } else {
        LostGrown(ll, ll', a.term, k, n.term);
      }
    }
  }

  /** A server acknowledges up to `m` in its current term: the log agrees with the
      leader's up to there, and `m` is durable or behind its snapshot. */
  lemma AckNew(ll: LeaderLogs, n: Node, i: Id, m: nat)
    requires NodeOk(ll, n) && n.term in ll && Has(n.log, ll[n.term], m)
    requires m <= n.durable || m <= n.snap
    ensures AckOk(ll, n, Ack(n.term, i, m))
  {
    var t := n.term;
    forall k: nat | OwnEntry(ll, t, k) && k <= m ensures Kept(ll, n, t, k) {
      HasShorter(n.log, ll[t], m, k);
      HasAt(n.log, ll[t], m, k - 1);
      forall v | v in n.vers ensures Has(v, ll[t], k) {
        if m <= n.durable {
          assert AllHave(n.vers, n.log, k);
        } else {
          HasShorter(v, n.log, n.snap, k);
        }
        HasVia(v, n.log, ll[t], k);
      }
    }
  }

  // ----- votes

  /** A log that is at least as up to date as one holding index `k` of term `t`
      holds it too — unless a leader elected in between did not. */
  lemma UpToDateHas(ll: LeaderLogs, log: Log, lc: Log, t: nat, k: nat, u: nat)
    requires LeaderLogsOk(ll) && Good(ll, log) && Good(ll, lc) && TermsUpTo(lc, u)
    requires OwnEntry(ll, t, k) && Has(log, ll[t], k)
    requires UpToDate(log, LastTerm(lc), |lc|)
    ensures Has(lc, ll[t], k) || LostBy(ll, t, k, u)
  {
    HasAt(log, ll[t], k, k - 1);
    GoodMonotone(ll, log, k - 1, |log| - 1);
    assert TermsUpTo(ll[t], t);
    var tc := LastTerm(lc);
    assert Carries(ll, lc, |lc|);
    if tc == LastTerm(log) {
      assert Carries(ll, log, |log|);
      HasShorter(log, ll[tc], |log|, k);
      HasShorter(lc, ll[tc], |lc|, k);
    } else if Has(ll[tc], ll[t], k) {
      LaterTermLonger(ll, lc, tc, t, k);
      HasShorter(lc, ll[tc], |lc|, k);
    } else {
      assert t < tc <= u;
    }
  }

  lemma LaterTermLonger(ll: LeaderLogs, lc: Log, tc: nat, t: nat, k: nat)
    requires LeaderLogsOk(ll) && tc in ll && t in ll && t < tc
    requires lc != [] && lc[|lc| - 1].term == tc && Has(lc, ll[tc], |lc|) && Has(ll[tc], ll[t], k)
    ensures k <= |lc|
  {
    if |lc| < k {
      HasAt(lc, ll[tc], |lc|, |lc| - 1);
      HasAt(ll[tc], ll[t], k, |lc| - 1);
      assert false;
    }
  }

  lemma VoterPassesOn(ll: LeaderLogs, acks: set<Ack>, i: Id, n: Node, lc: Log, u: nat)
    requires LeaderLogsOk(ll) && NodeOk(ll, n) && Good(ll, lc) && 0 < u && TermsUpTo(lc, u - 1)
    requires forall a :: a in acks && a.node == i ==> AckOk(ll, n, a)
    requires n.term <= u && u !in ll && UpToDate(n.log, LastTerm(lc), |lc|)
    ensures VoterKnew(ll, acks, u, i, lc)
  {
    assert n.log in n.vers;
    forall a, k: nat | a in acks && a.node == i && a.term < u && OwnEntry(ll, a.term, k) && k <= a.upTo
      ensures Has(lc, ll[a.term], k) || LostBy(ll, a.term, k, u - 1)
    {
      assert Kept(ll, n, a.term, k);
      if AllHave(n.vers, ll[a.term], k) {
        assert Has(n.log, ll[a.term], k);
        UpToDateHas(ll, n.log, lc, a.term, k, u - 1);
      } else {
        var w :| w in ll && a.term < w <= n.term && !Has(ll[w], ll[a.term], k);
        assert w <= u - 1;
      }
    }
  }

  // ----- the acknowledgement group over a step

  /** No vote, no acknowledgement, no leader log changed; server `i` became `n'`. */
  lemma AcksFrame(s: State, s': State, i: Id, n': Node)
    requires AcksOk(s) && OneNode(s, s', i, n') && NoVotes(s, s') && s'.acks == s.acks
    requires forall m :: m in s'.msgs && m.AppendRsp? ==> m in s.msgs
    requires forall a :: a in s.acks && a.node == i ==> AckOk(s.llog, n', a)
    ensures AcksOk(s')
  {
    forall a | a in s'.acks ensures AckHeld(s', a) { assert AckHeld(s, a); }
    forall m | m in s'.msgs ensures VoteKnew(s', m) { assert m in s.msgs ==> VoteKnew(s, m); }
    forall t, v ensures QuorumKnew(s', t, v) { assert QuorumKnew(s, t, v); }
  }

  lemma AcksShrink(s: State, s': State, i: Id, n': Node)
    requires AcksOk(s) && OneNode(s, s', i, n') && NoVotes(s, s') && s'.acks == s.acks
    requires forall m :: m in s'.msgs && m.AppendRsp? ==> m in s.msgs
    requires s.nodes[i].term <= n'.term && (forall v :: v in n'.vers ==> v in s.nodes[i].vers)
    ensures AcksOk(s')
  {
    forall a | a in s.acks && a.node == i ensures AckOk(s.llog, n', a) {
      assert AckHeld(s, a);
      AckShrinks(s.llog, s.nodes[i], n', a);
    }
    AcksFrame(s, s', i, n');
  }

  /** A server acknowledges in its current term: no vote of a later term of its own
      exists yet. */
  lemma AckAdded(s: State, s': State, a: Ack)
    requires AcksOk(s) && ElectionsOk(s) && AckHeld(s, a) && a.term == s.nodes[a.node].term
    requires s'.acks == s.acks + {a} && s'.nodes == s.nodes && s'.llog == s.llog && s'.elect == s.elect && s'.cand == s.cand
    requires s.msgs <= s'.msgs && NoVotes(s, s')
    requires forall m :: m in s'.msgs && m.AppendRsp? ==> m in s.msgs || Ack(m.term, m.from, m.matchIndex) == a
    ensures AcksOk(s')
  {
    forall b | b in s'.acks ensures AckHeld(s', b) { assert b in s.acks ==> AckHeld(s, b); }
    forall m | m in s'.msgs ensures VoteKnew(s', m) {
      if m in s.msgs { assert VoteBinds(s, m) && VoteKnew(s, m); }
    }
    forall t, v ensures QuorumKnew(s', t, v) {
      assert QuorumKnew(s, t, v);
      if t in s.llog && t in s.elect && v in s.elect[t].quorum {
        assert ElectOk(s, t);
        assert VoteBinds(s, VoteRsp(t, v, s.elect[t].leader));
      }
    }
  }

  lemma StartElectionAcks(s: State, s': State, i: Id)
    requires AcksOk(s) && ElectionsOk(s) && NodesOk(s) && StartElectionNext(s, i, s')
    ensures AcksOk(s')
  {
    var n := s.nodes[i];
    var u := n.term + 1;
    assert (u, i) !in s.cand by { assert CandOk(s, u, i); }
    assert NodeOk(s.llog, n) && n.log in n.vers;
    forall a | a in s'.acks ensures AckHeld(s', a) {
      assert AckHeld(s, a);
      if a.node == i { AckShrinks(s.llog, n, s'.nodes[i], a); }
    }
    forall m | m in s'.msgs ensures VoteKnew(s', m) {
      if m in s.msgs {
        assert VoteBinds(s, m) && VoteKnew(s, m);
      } else if m.VoteRsp? && m.term !in s.llog {
        CampaignKnows(s, i);
      }
    }
    forall t, v ensures QuorumKnew(s', t, v) { assert QuorumKnew(s, t, v); }
  }

  /** A candidate's own vote passes its acknowledgements on. */
  lemma CampaignKnows(s: State, i: Id)
    requires AcksOk(s) && NodesOk(s) && i in s.nodes && s.nodes[i].term + 1 !in s.llog
    ensures VoterKnew(s.llog, s.acks, s.nodes[i].term + 1, i, s.nodes[i].log)
  {
    var n := s.nodes[i];
    assert NodeOk(s.llog, n) && n.log in n.vers;
    forall a | a in s.acks && a.node == i ensures AckOk(s.llog, n, a) { assert AckHeld(s, a); }
    VoterPassesOn(s.llog, s.acks, i, n, n.log, n.term + 1);
  }

  /** The voter of a vote just granted passes its acknowledgements on. */
  lemma GrantKnows(s: State, s': State, i: Id, m: Msg, o: Msg)
    requires AcksOk(s) && ElectionsOk(s) && NodesOk(s) && VoteNext(s, i, m, s')
    requires o in s'.msgs && o !in s.msgs && o.VoteRsp? && o.term !in s.llog && (o.term, o.candidate) in s.cand
    ensures VoterKnew(s.llog, s.acks, o.term, o.voter, s.cand[(o.term, o.candidate)])
  {
    var n := s.nodes[i];
    assert VoteReqOk(s, m);
    assert CandOk(s, m.vote.term, m.vote.candidate);
    assert NodeOk(s.llog, n);
    forall a | a in s.acks && a.node == i ensures AckOk(s.llog, n, a) { assert AckHeld(s, a); }
    VoterPassesOn(s.llog, s.acks, i, n, s.cand[(o.term, o.candidate)], o.term);
  }

  lemma VoteAcks(s: State, s': State, i: Id, m: Msg)
    requires AcksOk(s) && ElectionsOk(s) && NodesOk(s) && VoteNext(s, i, m, s')
    ensures AcksOk(s')
  {
    var n' := HandleRequestVote(s.nodes[i], s.voters, m.vote).0;
    forall a | a in s'.acks ensures AckHeld(s', a) {
      assert AckHeld(s, a);
      if a.node == i { AckShrinks(s.llog, s.nodes[i], n', a); }
    }
    forall o | o in s'.msgs ensures VoteKnew(s', o) {
      if o in s.msgs {
        assert VoteKnew(s, o);
      } else if o.VoteRsp? && o.term !in s.llog && (o.term, o.candidate) in s.cand {
        GrantKnows(s, s', i, m, o);
      }
    }
    forall t, v ensures QuorumKnew(s', t, v) { assert QuorumKnew(s, t, v); }
  }

  // ----- leader logs grow

  lemma VoterKnewGrown(ll: LeaderLogs, ll': LeaderLogs, acks: set<Ack>, t: nat, v: Id, log: Log, log': Log)
    requires VoterKnew(ll, acks, t, v, log) && Grown(ll, ll') && log <= log'
    requires forall a :: a in acks ==> a.term in ll && a.upTo <= |ll[a.term]|
    ensures VoterKnew(ll', acks, t, v, log')
  {
    forall a, k: nat | a in acks && a.node == v && a.term < t && OwnEntry(ll', a.term, k) && k <= a.upTo
      ensures Has(log', ll'[a.term], k) || LostBy(ll', a.term, k, t - 1)
    {
      assert OwnEntry(ll, a.term, k);
      if Has(log, ll[a.term], k) {
        HasExtend(log, log', ll[a.term], k);
        HasGrownRight(log', ll[a.term], ll'[a.term], k);
      } else {
        LostGrown(ll, ll', a.term, k, t - 1);
      }
    }
  }

  lemma AppendsAcks(s: State, s': State, i: Id, log': Log)
    requires AcksOk(s) && NodesOk(s) && Appends(s, s', i, log') && s'.acks == s.acks
    requires s'.nodes[i].vers == s.nodes[i].vers + [log']
    requires forall t :: t in s.llog ==> t in s'.elect && t in s.elect && s'.elect[t] == s.elect[t]
    requires s.nodes[i].term !in s.llog ==>
               && s.nodes[i].term in s'.elect
               && forall v :: v in s'.elect[s.nodes[i].term].quorum ==>
                    VoterKnew(s.llog, s.acks, s.nodes[i].term, v, s.nodes[i].log)
    ensures AcksOk(s')
  {
    var n := s.nodes[i];
    assert NodeOk(s.llog, n) && n.log in n.vers;
    forall a | a in s.acks ensures a.term in s.llog && a.upTo <= |s.llog[a.term]| { assert AckHeld(s, a); }
    forall a | a in s'.acks ensures AckHeld(s', a) { AppendsAck(s, s', i, log', a); }
    forall m | m in s'.msgs ensures VoteKnew(s', m) {
      assert VoteKnew(s, m);
      if m.VoteRsp? && m.term !in s'.llog && (m.term, m.candidate) in s.cand {
        var log := s.cand[(m.term, m.candidate)];
        VoterKnewGrown(s.llog, s'.llog, s.acks, m.term, m.voter, log, log);
      }
    }
    forall t, v ensures QuorumKnew(s', t, v) {
      assert QuorumKnew(s, t, v);
      if t in s'.llog && t in s'.elect && v in s'.elect[t].quorum {
        VoterKnewGrown(s.llog, s'.llog, s.acks, t, v, if t in s.llog then s.llog[t] else n.log, s'.llog[t]);
      }
    }
  }

  lemma AppendsAck(s: State, s': State, i: Id, log': Log, a: Ack)
    requires AcksOk(s) && Appends(s, s', i, log') && a in s.acks
    requires NodeOk(s.llog, s.nodes[i]) && s'.nodes[i].vers == s.nodes[i].vers + [log']
    ensures AckHeld(s', a)
  {
    var n, n' := s.nodes[i], s'.nodes[i];
    assert AckHeld(s, a);
    assert n.log in n.vers;
    forall log, k | a.node == i && AllHave(n.vers, log, k) ensures AllHave(n'.vers, log, k) {
      assert Has(n.log, log, k);
      HasExtend(n.log, log', log, k);
    }
    AckGrown(s.llog, s'.llog, s.nodes[a.node], s'.nodes[a.node], a);
  }

  // ----- the leader's peer table

  lemma MatchedFrame(s: State, s': State, i: Id)
    requires MatchedOk(s) && i in s.nodes && i in s'.nodes && s.acks <= s'.acks && s'.nodes == s.nodes[i := s'.nodes[i]]
    requires s'.nodes[i].role == Leader ==>
               && s.nodes[i].role == Leader && s'.nodes[i].term == s.nodes[i].term
               && s'.nodes[i].matched == s.nodes[i].matched && s.nodes[i].commit <= s'.nodes[i].commit
    ensures MatchedOk(s')
  {}
}
