/** Leader Completeness: what was committed is in the log of every later leader. */
module Completeness {
  import opened Basics
  import opened RaftLog
  import opened RaftNodeSpec
  import opened Cluster
  import opened Invariant

  /** Any two majorities of one voter set share a voter. */
  lemma QuorumsMeet(a: set<Id>, b: set<Id>, voters: set<Id>) returns (v: Id)
    requires IsQuorum(a, voters) && IsQuorum(b, voters)
    ensures v in a && v in b
  {
    if a !! b {
      assert |a + b| == |a| + |b|;
      SubsetSize(a + b, voters);
      assert false;
    }
    v :| v in a && v in b;
  }

  /** The facts leader completeness rests on. */
  ghost predicate History(s: State) {
    && (forall t :: t in s.llog ==> t in s.elect && IsQuorum(s.elect[t].quorum, s.voters))
    && (forall t, v {:trigger QuorumKnew(s, t, v)} :: QuorumKnew(s, t, v))
    && (forall c {:trigger CommitOk(s.llog, s.acks, s.voters, c)} :: c in s.commits ==> CommitOk(s.llog, s.acks, s.voters, c))
  }

  lemma HistoryFromInv(s: State)
    requires ElectionsOk(s) && AcksOk(s) && CommitsOk(s)
    ensures History(s)
  {
    forall t | t in s.llog ensures t in s.elect && IsQuorum(s.elect[t].quorum, s.voters) {
      assert ElectOk(s, t);
    }
  }

  lemma {:induction false} LeaderCompleteness(s: State, c: Commit, u: nat)
    requires History(s) && c in s.commits && u in s.llog && c.term <= u
    ensures c.term in s.llog && Has(s.llog[u], s.llog[c.term], c.index)
    decreases u
  {
    assert CommitOk(s.llog, s.acks, s.voters, c);
    if c.term < u {
      var v := QuorumsMeet(c.quorum, s.elect[u].quorum, s.voters);
      assert HasAck(s.acks, c.term, v, c.index);
      var a :| a in s.acks && a.term == c.term && a.node == v && c.index <= a.upTo;
      assert QuorumKnew(s, u, v);
      if !Has(s.llog[u], s.llog[c.term], c.index) {
        var w :| w in s.llog && c.term < w <= u - 1 && !Has(s.llog[w], s.llog[c.term], c.index);
        LeaderCompleteness(s, c, w);
        assert false;
      }
    }
  }

  /** A committed prefix known in term `t` is in the log of every leader from `t` on. */
  lemma CommittedInLeader(s: State, k: nat, t: nat, u: nat)
    requires History(s) && Known(s.commits, k, t) && t <= u && u in s.llog
    requires CommitsOk(s)
    ensures Has(s.llog[u], s.committed, k)
  {
    if k > 0 {
      var c :| c in s.commits && c.term <= t && k <= c.index;
      assert CommitOk(s.llog, s.acks, s.voters, c);
      LeaderCompleteness(s, c, u);
      HasVia(s.llog[u], s.llog[c.term], s.committed, c.index);
      HasShorter(s.llog[u], s.committed, c.index, k);
    }
  }

  /** Two commits never disagree: the later-term one contains the other, and an
      earlier-term commit cannot reach past it. */
  lemma CommitsAgree(s: State, c: Commit, d: Commit)
    requires LeaderLogsOk(s.llog) && History(s) && c in s.commits && d in s.commits && c.index <= d.index
    ensures c.term in s.llog && d.term in s.llog && Has(s.llog[d.term], s.llog[c.term], c.index)
  {
    assert CommitOk(s.llog, s.acks, s.voters, c) && CommitOk(s.llog, s.acks, s.voters, d);
    if c.term <= d.term {
      LeaderCompleteness(s, c, d.term);
    } else {
      LeaderCompleteness(s, d, c.term);
      HasShorter(s.llog[c.term], s.llog[d.term], d.index, c.index);
    }
  }
}
