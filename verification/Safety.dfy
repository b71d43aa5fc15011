/** What holds of every run of the cluster: the safety theorems. */
module Safety {
  import opened Basics
  import opened RaftLog
  import opened RaftNodeSpec
  import opened Cluster
  import opened Invariant
  import opened Completeness
  import opened ElectionSteps
  import opened CommitSteps
  import opened Preservation
  import opened AppendSteps

  // ----- history only grows

  /** `s'` is reached from `s`: nothing that history recorded is taken back. */
  ghost predicate Evolves(s: State, s': State) {
    && s'.voters == s.voters && Grown(s.llog, s'.llog)
    && (forall t :: t in s.llog && t in s.elect ==> t in s'.elect && s'.elect[t] == s.elect[t])
    && s.msgs <= s'.msgs && s.acks <= s'.acks && s.commits <= s'.commits && s.committed <= s'.committed
    && (forall i :: i in s.nodes ==> i in s'.nodes && s.nodes[i].term <= s'.nodes[i].term)
    && (forall r :: r in s.fences ==> r in s'.fences && s'.fences[r] == s.fences[r].(oks := s'.fences[r].oks))
  }

  lemma SubmitEvolves(s: State, s': State, i: Id, kind: Kind, command: seq<Byte>)
    requires Inv(s) && SubmitNext(s, i, kind, command, s')
    ensures Evolves(s, s')
  {
    At(s, i);
    LeaderTermPositive(s, i);
    LeaderLogsAppend(s.llog, s.nodes[i].term, s.nodes[i].log, s'.nodes[i].log[|s.nodes[i].log|]);
  }

  lemma LeaderEvolves(s: State, s': State, i: Id)
    requires Inv(s) && BecomeLeaderNext(s, i, s')
    ensures Evolves(s, s')
  {
    BecomeLeaderKeeps(s, s', i);
  }

  lemma CommitEvolves(s: State, s': State, i: Id, k: nat)
    requires CommitNext(s, i, k, s') && s.committed <= s'.committed
    ensures Evolves(s, s')
  {}

  lemma CommitGrows(s: State, s': State, i: Id, k: nat)
    requires Inv(s) && CommitNext(s, i, k, s')
    ensures s.committed <= s'.committed
  {
    CommitInv(s, s', i, k);
  }

  /** One server changed and messages were sent; no leader, no commit, no read. */
  ghost predicate Quiet(s: State, s': State, i: Id) {
    && i in s.nodes && i in s'.nodes && s'.nodes == s.nodes[i := s'.nodes[i]] && s.nodes[i].term <= s'.nodes[i].term
    && s' == s.(nodes := s'.nodes, msgs := s'.msgs, acks := s'.acks, cand := s'.cand)
    && s.msgs <= s'.msgs && s.acks <= s'.acks
  }

  lemma QuietEvolves(s: State, s': State, i: Id)
    requires Quiet(s, s', i)
    ensures Evolves(s, s')
  {}

  lemma RepliedGrows(s: State, i: Id, n: Node, o: Outcome, read: Option<nat>)
    ensures var s' := Replied(s, i, n, o, read);
      s' == s.(msgs := s'.msgs, acks := s'.acks) && s.msgs <= s'.msgs && s.acks <= s'.acks
  {}

  lemma HandleTerm(n: Node, a: AppendArgs)
    ensures n.term <= HandleAppendEntries(n, a).0.term
  {}

  lemma AppendQuiet(s: State, s': State, i: Id, m: Msg)
    requires AppendNext(s, i, m, s')
    ensures Quiet(s, s', i)
  {
    var (n', o) := HandleAppendEntries(s.nodes[i], m.append);
    HandleTerm(s.nodes[i], m.append);
    RepliedGrows(Put(s, i, n'), i, n', o, m.read);
  }

  lemma AnswerQuiet(s: State, s': State, i: Id, w: Waiter)
    requires AnswerNext(s, i, w, s')
    ensures Quiet(s, s', i)
  {
    var n := s.nodes[i];
    RepliedGrows(Put(s, i, n.(waiters := n.waiters - {w})), i, n, Matched(n.term, w.target), None);
  }

  lemma VoteQuiet(s: State, s': State, i: Id, m: Msg)
    requires VoteNext(s, i, m, s')
    ensures Quiet(s, s', i)
  {}

  /** Steps of one server that send nothing. */
  lemma LocalQuiet(s: State, step: Step, s': State)
    requires Next(s, step, s')
    requires step.DoCountVote? || step.DoCountAck? || step.DoSyncBegin? || step.DoSyncFlush? || step.DoSyncEnd? || step.DoApply?
             || step.DoCapture? || step.DoInstall? || step.DoConfirmSnapshot? || step.DoRestart? || step.DoAdoptTerm? || step.DoStepDown?
    ensures Quiet(s, s', step.i)
  {}

  lemma ReloadQuiet(s: State, s': State, i: Id, v: nat, data: Log, k: nat)
    requires ReloadNext(s, i, v, data, k, s')
    ensures Quiet(s, s', i)
  {}

  lemma StartElectionQuiet(s: State, s': State, i: Id)
    requires StartElectionNext(s, i, s')
    ensures Quiet(s, s', i)
  {}

  /** Steps that send a request or confirm a read. */
  lemma RequestEvolves(s: State, step: Step, s': State)
    requires Next(s, step, s') && (step.DoSendAppend? || step.DoSendSnapshot? || step.DoReadBegin? || step.DoReadCount?)
    ensures Evolves(s, s')
  {
    assert s'.nodes == s.nodes;
  }

  lemma OtherQuiet(s: State, step: Step, s': State)
    requires Next(s, step, s') && !step.DoSubmit? && !step.DoBecomeLeader? && !step.DoCommit?
    requires !step.DoSendAppend? && !step.DoSendSnapshot? && !step.DoReadBegin? && !step.DoReadCount?
    ensures Quiet(s, s', step.i)
  {
    if step.DoStartElection? {
      StartElectionQuiet(s, s', step.i);
    } else if step.DoVote? {
      VoteQuiet(s, s', step.i, step.m);
    } else if step.DoAnswer? {
      AnswerQuiet(s, s', step.i, step.w);
    } else if step.DoAppend? {
      AppendQuiet(s, s', step.i, step.m);
    } else if step.DoReload? {
      ReloadQuiet(s, s', step.i, step.v, step.data, step.k);
    } else {
      LocalQuiet(s, step, s');
    }
  }

  lemma NextEvolves(s: State, step: Step, s': State)
    requires Inv(s) && Next(s, step, s')
    ensures Evolves(s, s')
  {
    if step.DoSubmit? {
      SubmitEvolves(s, s', step.i, step.kind, step.command);
    } else if step.DoBecomeLeader? {
      LeaderEvolves(s, s', step.i);
    } else if step.DoCommit? {
      CommitGrows(s, s', step.i, step.k);
      CommitEvolves(s, s', step.i, step.k);
    } else if step.DoSendAppend? || step.DoSendSnapshot? || step.DoReadBegin? || step.DoReadCount? {
      RequestEvolves(s, step, s');
    } else {
      OtherQuiet(s, step, s');
      QuietEvolves(s, s', step.i);
    }
  }

  lemma EvolvesTrans(a: State, b: State, c: State)
    requires Evolves(a, b) && Evolves(b, c)
    ensures Evolves(a, c)
  {
    forall t | t in a.llog ensures
      && t in c.llog && a.llog[t] <= c.llog[t]
      && forall i :: |a.llog[t]| <= i < |c.llog[t]| ==> c.llog[t][i].term == t
    {
      forall i | |a.llog[t]| <= i < |c.llog[t]| ensures c.llog[t][i].term == t {
        if i < |b.llog[t]| { assert b.llog[t][i] == c.llog[t][i]; }
      }
    }
  }

  lemma {:induction false} RunEvolves(states: seq<State>, steps: seq<Step>, k: nat, j: nat)
    requires IsRun(states, steps) && k <= j < |states|
    ensures Evolves(states[k], states[j])
    decreases j - k
  {
    if k < j {
      RunEvolves(states, steps, k, j - 1);
      RunInv(states, steps, j - 1);
      NextEvolves(states[j - 1], steps[j - 1], states[j]);
      EvolvesTrans(states[k], states[j - 1], states[j]);
    }
  }

  lemma {:induction false} RunInv(states: seq<State>, steps: seq<Step>, k: nat)
    requires IsRun(states, steps) && k < |states|
    ensures Inv(states[k])
  {
    if k == 0 {
      InitInv(states[0]);
    } else {
      RunInv(states, steps, k - 1);
      NextInv(states[k - 1], steps[k - 1], states[k]);
    }
  }

  // ----- elections

  /** Election Safety: over a whole run a term has at most one leader. */
  lemma ElectionSafety(states: seq<State>, steps: seq<Step>, k: nat, j: nat, a: Id, b: Id)
    requires IsRun(states, steps) && k < |states| && j < |states|
    requires a in states[k].nodes && b in states[j].nodes
    requires states[k].nodes[a].role == Leader && states[j].nodes[b].role == Leader
    requires states[k].nodes[a].term == states[j].nodes[b].term
    ensures a == b
  {
    if k <= j { LeaderStays(states, steps, k, j, a, b); } else { LeaderStays(states, steps, j, k, b, a); }
  }

  lemma LeaderStays(states: seq<State>, steps: seq<Step>, k: nat, j: nat, a: Id, b: Id)
    requires IsRun(states, steps) && k <= j < |states|
    requires a in states[k].nodes && b in states[j].nodes
    requires states[k].nodes[a].role == Leader && states[j].nodes[b].role == Leader
    requires states[k].nodes[a].term == states[j].nodes[b].term
    ensures a == b
  {
    LeaderRecorded(states, steps, k, a);
    LeaderRecorded(states, steps, j, b);
    RunEvolves(states, steps, k, j);
  }

  /** A leader is the recorded winner of its term, and its log the leader log. */
  lemma LeaderRecorded(states: seq<State>, steps: seq<Step>, k: nat, a: Id)
    requires IsRun(states, steps) && k < |states| && a in states[k].nodes && states[k].nodes[a].role == Leader
    ensures var s, n := states[k], states[k].nodes[a];
      n.term in s.llog && s.llog[n.term] == n.log && n.term in s.elect && s.elect[n.term].leader == a
  {
    RunInv(states, steps, k);
    assert RoleOk(states[k], a);
  }

  /** A server never grants its vote to two candidates in one term. */
  lemma VoteOnce(states: seq<State>, steps: seq<Step>, k: nat, j: nat, t: nat, v: Id, c: Id, d: Id)
    requires IsRun(states, steps) && k <= j < |states|
    requires VoteRsp(t, v, c) in states[k].msgs && VoteRsp(t, v, d) in states[j].msgs
    ensures c == d
  {
    RunEvolves(states, steps, k, j);
    RunInv(states, steps, j);
    assert VoteBinds(states[j], VoteRsp(t, v, c));
  }

  // ----- logs

  lemma NodeLogGood(s: State, i: Id, v: Log)
    requires NodesOk(s) && i in s.nodes && v in s.nodes[i].vers
    ensures Good(s.llog, v)
  {
    assert NodeOk(s.llog, s.nodes[i]);
  }

  /** Log Matching over a whole run: two logs, of any servers at any times, in
      memory or as a crash may leave them, that have an entry of the same index
      and term are equal up to it. */
  lemma LogMatchingInRuns(states: seq<State>, steps: seq<Step>, k: nat, j: nat, a: Id, b: Id, v: Log, w: Log, i: nat)
    requires IsRun(states, steps) && k < |states| && j < |states|
    requires a in states[k].nodes && v in states[k].nodes[a].vers
    requires b in states[j].nodes && w in states[j].nodes[b].vers
    requires 0 < i <= |v| && i <= |w| && v[i - 1].term == w[i - 1].term
    ensures v[..i] == w[..i]
  {
    var z := if k <= j then j else k;
    GoodLater(states, steps, k, z, a, v);
    GoodLater(states, steps, j, z, b, w);
    LogMatching(states[z].llog, v, w, i);
  }

  lemma GoodLater(states: seq<State>, steps: seq<Step>, k: nat, z: nat, a: Id, v: Log)
    requires IsRun(states, steps) && k <= z < |states| && a in states[k].nodes && v in states[k].nodes[a].vers
    ensures Good(states[z].llog, v)
  {
    RunInv(states, steps, k);
    NodeLogGood(states[k], a, v);
    RunEvolves(states, steps, k, z);
    GoodGrown(states[k].llog, states[z].llog, v);
  }

  // ----- commits

  /** Leader Completeness: what was committed in term T by state k is in the log of
      every leader of a term from T on, then and later. */
  lemma LeadersHaveCommitted(states: seq<State>, steps: seq<Step>, k: nat, j: nat, c: Commit, a: Id)
    requires IsRun(states, steps) && k <= j < |states| && c in states[k].commits
    requires a in states[j].nodes && states[j].nodes[a].role == Leader && c.term <= states[j].nodes[a].term
    ensures Has(states[j].nodes[a].log, states[k].committed, c.index)
  {
    var s := states[j];
    RunInv(states, steps, k);
    RunInv(states, steps, j);
    RunEvolves(states, steps, k, j);
    LeaderRecorded(states, steps, j, a);
    CommitInLeader(s, c, s.nodes[a].term);
    CommitReached(states[k], c);
    HasGrownRight(s.nodes[a].log, states[k].committed, s.committed, c.index);
  }

  lemma CommitReached(s: State, c: Commit)
    requires CommitsOk(s) && c in s.commits
    ensures c.index <= |s.committed| && 0 < c.index
  {
    assert CommitOk(s.llog, s.acks, s.voters, c);
  }

  lemma CommitInLeader(s: State, c: Commit, u: nat)
    requires ElectionsOk(s) && AcksOk(s) && CommitsOk(s) && c in s.commits && u in s.llog && c.term <= u
    ensures Has(s.llog[u], s.committed, c.index)
  {
    HistoryFromInv(s);
    assert CommitOk(s.llog, s.acks, s.voters, c);
    LeaderCompleteness(s, c, u);
    HasVia(s.llog[u], s.llog[c.term], s.committed, c.index);
  }

  /** State Machine Safety: any two servers, at any two times of a run, have applied
      comparable sequences of entries: none ever differs from the other at an index. */
  lemma StateMachineSafety(states: seq<State>, steps: seq<Step>, k: nat, j: nat, a: Id, b: Id)
    requires IsRun(states, steps) && k < |states| && j < |states| && a in states[k].nodes && b in states[j].nodes
    ensures var x, y := states[k].nodes[a].applied, states[j].nodes[b].applied;
      x <= y || y <= x
  {
    var z := if k <= j then j else k;
    AppliedIsCommitted(states, steps, k, z, a);
    AppliedIsCommitted(states, steps, j, z, b);
  }

  /** Everything applied is committed, then and for good. */
  lemma AppliedIsCommitted(states: seq<State>, steps: seq<Step>, k: nat, j: nat, a: Id)
    requires IsRun(states, steps) && k <= j < |states| && a in states[k].nodes
    ensures states[k].nodes[a].applied <= states[j].committed
  {
    RunInv(states, steps, k);
    At(states[k], a);
    RunEvolves(states, steps, k, j);
  }

  /** Committed entries are never replaced. */
  lemma CommittedStays(states: seq<State>, steps: seq<Step>, k: nat, j: nat)
    requires IsRun(states, steps) && k <= j < |states|
    ensures states[k].committed <= states[j].committed
  {
    RunEvolves(states, steps, k, j);
  }

  /** Durability: the majority that let an index commit holds everything up to it in
      every log a crash of the server may leave, at every later moment. */
  lemma CommitSurvivesCrashes(states: seq<State>, steps: seq<Step>, k: nat, j: nat, c: Commit, a: Id, v: Log)
    requires IsRun(states, steps) && k <= j < |states| && c in states[k].commits
    requires a in c.quorum && a in states[j].nodes && v in states[j].nodes[a].vers
    ensures IsQuorum(c.quorum, states[j].voters) && Has(v, states[k].committed, c.index)
  {
    RunInv(states, steps, k);
    RunInv(states, steps, j);
    RunEvolves(states, steps, k, j);
    HolderKeeps(states[j], c, a, v);
    CommitReached(states[k], c);
    HasGrownRight(v, states[k].committed, states[j].committed, c.index);
  }

  lemma HolderKeeps(s: State, c: Commit, a: Id, v: Log)
    requires ElectionsOk(s) && AcksOk(s) && CommitsOk(s) && c in s.commits
    requires a in c.quorum && a in s.nodes && v in s.nodes[a].vers
    ensures IsQuorum(c.quorum, s.voters) && Has(v, s.committed, c.index)
  {
    HistoryFromInv(s);
    assert CommitOk(s.llog, s.acks, s.voters, c);
    assert HasAck(s.acks, c.term, a, c.index);
    var k :| k in s.acks && k.term == c.term && k.node == a && c.index <= k.upTo;
    assert AckHeld(s, k);
    assert Kept(s.llog, s.nodes[a], c.term, c.index);
    forall w | w in s.llog && c.term <= w ensures Has(s.llog[w], s.llog[c.term], c.index) { LeaderCompleteness(s, c, w); }
    HasVia(v, s.llog[c.term], s.committed, c.index);
  }

  /** A server's commit index covers only committed entries, which its log holds as
      far as it reaches. */
  lemma CommitIndexIsSafe(states: seq<State>, steps: seq<Step>, k: nat, a: Id)
    requires IsRun(states, steps) && k < |states| && a in states[k].nodes
    ensures var s, n := states[k], states[k].nodes[a];
      n.commit <= |s.committed| && (n.commit <= |n.log| ==> n.log[..n.commit] == s.committed[..n.commit])
  {
    RunInv(states, steps, k);
    At(states[k], a);
  }

  // ----- reads

  /** A confirmed fence is at or past everything committed before the read began. */
  lemma FenceCovers(s: State, r: Read, c: Commit)
    requires LeaderLogsOk(s.llog) && History(s) && FenceOk(s.llog, s.commits, s.voters, r)
    requires IsQuorum(r.oks, s.voters) && c in r.before
    ensures c.index <= r.fence
  {
    assert CommitOk(s.llog, s.acks, s.voters, c);
    if r.term < c.term {
      var v := QuorumsMeet(c.quorum, r.oks, s.voters);
      assert false;
    } else if c.term < r.term {
      LeaderCompleteness(s, c, r.term);
    }
  }

  lemma BeforeIsCommits(states: seq<State>, steps: seq<Step>, b: nat, j: nat, i: Id, r: nat)
    requires IsRun(states, steps) && b < j < |states| && steps[b] == DoReadBegin(i, r)
    ensures r in states[j].fences && states[j].fences[r].before == states[b].commits
    ensures i in states[b].nodes && states[j].fences[r].fence == states[b].nodes[i].commit
  {
    RunEvolves(states, steps, b + 1, j);
    assert ReadBeginNext(states[b], i, r, states[b + 1]);
  }

  /** Linearizable reads: a read that took its fence in state b and was confirmed by
      a majority by state j sees, on any server that has applied up to the fence,
      everything that was committed anywhere before the read began. */
  lemma ReadSeesCommitted(states: seq<State>, steps: seq<Step>, b: nat, j: nat, i: Id, r: nat, a: Id)
    requires IsRun(states, steps) && b < j < |states| && steps[b] == DoReadBegin(i, r)
    requires r in states[j].fences && IsQuorum(states[j].fences[r].oks, states[j].voters)
    requires a in states[j].nodes && states[j].fences[r].fence <= |states[j].nodes[a].applied|
    ensures states[b].committed <= states[j].nodes[a].applied
  {
    var s := states[j];
    RunInv(states, steps, b);
    RunInv(states, steps, j);
    BeforeIsCommits(states, steps, b, j, i, r);
    CommittedStays(states, steps, b, j);
    AppliedIsCommitted(states, steps, j, j, a);
    if states[b].committed != [] {
      var c :| c in states[b].commits && c.index == |states[b].committed|;
      HistoryFromInv(s);
      FenceCovers(s, s.fences[r], c);
    }
  }

  lemma CommittedTerms(s: State, i: nat)
    requires LeaderLogsOk(s.llog) && CommitsOk(s) && i < |s.committed|
    ensures s.committed[i].term in s.llog
  {
    var c :| c in s.commits && c.index == |s.committed|;
    assert CommitOk(s.llog, s.acks, s.voters, c);
    assert Carries(s.llog, s.llog[c.term], i + 1);
    assert s.committed[..c.index][i] == s.llog[c.term][..c.index][i];
  }

  /** The entry a leader begins its term with stays where it put it. */
  lemma TermStart(states: seq<State>, steps: seq<Step>, b: nat, j: nat, a: Id)
    requires IsRun(states, steps) && b < j < |states| && steps[b] == DoBecomeLeader(a) && a in states[b].nodes
    requires a in states[j].nodes && states[j].nodes[a].role == Leader && states[j].nodes[a].term == states[b].nodes[a].term
    ensures states[b].nodes[a].term !in states[b].llog && a in states[b + 1].nodes
    ensures var start, log := |states[b + 1].nodes[a].log|, states[j].nodes[a].log;
      0 < start <= |log| && log[start - 1].term == states[b].nodes[a].term
  {
    RunInv(states, steps, b);
    assert BecomeLeaderNext(states[b], a, states[b + 1]);
    WinnerIsFirst(states[b], a);
    LeaderRecorded(states, steps, b + 1, a);
    LeaderRecorded(states, steps, j, a);
    RunEvolves(states, steps, b + 1, j);
  }

  /** Reads on a new leader: once it has applied the entry it began its term with, it has
      applied everything that was committed anywhere when it was elected. */
  lemma LeaderHasApplied(states: seq<State>, steps: seq<Step>, b: nat, j: nat, a: Id)
    requires IsRun(states, steps) && b < j < |states| && steps[b] == DoBecomeLeader(a) && a in states[b].nodes
    requires a in states[j].nodes && states[j].nodes[a].role == Leader && states[j].nodes[a].term == states[b].nodes[a].term
    requires a in states[b + 1].nodes && |states[b + 1].nodes[a].log| <= |states[j].nodes[a].applied|
    ensures states[b].committed <= states[j].nodes[a].applied
  {
    var n, start := states[j].nodes[a], |states[b + 1].nodes[a].log|;
    RunInv(states, steps, b);
    RunInv(states, steps, j);
    TermStart(states, steps, b, j, a);
    CommitIndexIsSafe(states, steps, j, a);
    CommittedStays(states, steps, b, j);
    AppliedIsCommitted(states, steps, j, j, a);
    assert NodeCommitOk(states[j].commits, states[j].committed, n);
    if |n.applied| < |states[b].committed| {
      assert states[b].committed[start - 1] == states[j].committed[start - 1] == n.log[start - 1];
      CommittedTerms(states[b], start - 1);
      assert false;
    }
  }
}
