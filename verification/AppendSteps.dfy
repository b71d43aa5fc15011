/** AppendEntries, its delayed replies and the read fence: these steps keep the
    invariant. */
module AppendSteps {
  import opened Basics
  import opened RaftLog
  import opened RaftNodeSpec
  import opened Cluster
  import opened Invariant
  import opened Completeness
  import opened NodeSteps
  import opened ElectionSteps
  import opened AckSteps
  import opened CommitSteps
  import opened Preservation

  /** What a server has compacted, the leader of its term holds too. */
  lemma KnownInLeader(s: State, n: Node, k: nat)
    requires ElectionsOk(s) && AcksOk(s) && CommitsOk(s) && n.term in s.llog && k <= n.commit
    requires NodeCommitOk(s.commits, s.committed, n)
    ensures Has(s.llog[n.term], s.committed, k)
    ensures k <= n.snap ==> Has(n.log, s.llog[n.term], k)
  {
    HistoryFromInv(s);
    KnownMore(s.commits, s.commits, n.commit, k, n.term, n.term);
    CommittedInLeader(s, k, n.term, n.term);
    if k <= n.snap {
      HasShorter(n.log, s.committed, n.snap, k);
      HasVia(n.log, s.committed, s.llog[n.term], k);
    }
  }

  // ----- replies

  /** Nobody acknowledged in a term later than its own. */
  lemma QuorumTerm(s: State, i: Id, c: Commit)
    requires AcksOk(s) && CommitsOk(s) && c in s.commits && i in s.nodes && s.nodes[i].term < c.term
    ensures i !in c.quorum
  {
    assert CommitOk(s.llog, s.acks, s.voters, c);
    forall a | a in s.acks && a.node == i ensures a.term < c.term { assert AckHeld(s, a); }
    assert i in c.quorum ==> HasAck(s.acks, c.term, i, c.index);
  }

  lemma ReadReplyFences(s: State, s': State, i: Id, id: nat)
    requires AcksOk(s) && CommitsOk(s) && FencesOk(s) && i in s.nodes && i in s.voters && id in s.fences
    requires s' == Send(s, ReadRsp(id, i, s.nodes[i].term))
    ensures FencesOk(s')
  {
    forall r | r in s'.fences ensures FenceOk(s'.llog, s'.commits, s'.voters, s'.fences[r]) {
      assert FenceOk(s.llog, s.commits, s.voters, s.fences[r]);
    }
    forall c | c in s.fences[id].before && s.nodes[i].term < c.term ensures i !in c.quorum {
      assert FenceOk(s.llog, s.commits, s.voters, s.fences[id]);
      QuorumTerm(s, i, c);
    }
  }

  /** A read confirmation or an acknowledgement adds one message. */
  lemma MessageFrame(s: State, s': State, i: Id)
    requires Inv(s) && i in s.voters && s.msgs <= s'.msgs && s.acks <= s'.acks
    requires s' == s.(msgs := s'.msgs, acks := s'.acks)
    requires forall m :: m in s'.msgs && !m.AppendRsp? && !m.ReadRsp? ==> m in s.msgs
    ensures NodesOk(s') && ElectionsOk(s') && MatchedOk(s') && RequestsOk(s') && CommitsOk(s')
  {
    At(s, i);
    SameIsGrown(s.llog);
    assert s'.nodes == s.nodes[i := s.nodes[i]];
    NodesPut(s, s', i, s.nodes[i]);
    RoleKept(s, s', i, s.nodes[i]);
    ElectionsFrame(s, s', i, s.nodes[i]);
    MatchedFrame(s, s', i);
    RequestsGrow(s, s');
    CommitsFrame(s, s', i, s.nodes[i]);
  }

  lemma ReadReplyAcks(s: State, s': State, i: Id, id: nat)
    requires AcksOk(s) && i in s.nodes && s' == Send(s, ReadRsp(id, i, s.nodes[i].term))
    ensures AcksOk(s')
  {
    assert s'.nodes == s.nodes[i := s.nodes[i]];
    AcksShrink(s, s', i, s.nodes[i]);
  }

  lemma ReadReplyKeeps(s: State, s': State, i: Id, id: nat)
    requires Inv(s) && i in s.voters && id in s.fences && s' == Send(s, ReadRsp(id, i, s.nodes[i].term))
    ensures Inv(s')
  {
    MessageFrame(s, s', i);
    ReadReplyFences(s, s', i, id);
    ReadReplyAcks(s, s', i, id);
  }

  lemma AckReplyKeeps(s: State, s': State, i: Id, k: nat)
    requires Inv(s) && i in s.voters && AckOk(s.llog, s.nodes[i], Ack(s.nodes[i].term, i, k))
    requires s' == Replied(s, i, s.nodes[i], Matched(s.nodes[i].term, k), None)
    ensures Inv(s')
  {
    SameIsGrown(s.llog);
    MessageFrame(s, s', i);
    FencesFrame(s, s');
    AckAdded(s, s', Ack(s.nodes[i].term, i, k));
  }

  lemma ReplyKeeps(s: State, s': State, i: Id, o: Outcome, read: Option<nat>)
    requires Inv(s) && i in s.voters && s' == Replied(s, i, s.nodes[i], o, read)
    requires read.Some? ==> read.value in s.fences
    requires o.Matched? ==> AckOk(s.llog, s.nodes[i], Ack(s.nodes[i].term, i, o.matchIndex))
    ensures Inv(s')
  {
    if read.Some? {
      ReadReplyKeeps(s, s', i, read.value);
    } else if o.Matched? {
      AckReplyKeeps(s, s', i, o.matchIndex);
    }
  }

  // ----- accepting entries

  lemma AcceptNodeOk(ll: LeaderLogs, n: Node, n': Node, o: Outcome, x: nat, target: nat, commit: nat)
    requires LeaderLogsOk(ll) && NodeOk(ll, n) && Accepted(ll, n, n', o, x, target, commit)
    ensures NodeOk(ll, n')
  {
    if LogsUnchanged(n, n') {
      TermStep(ll, n, n'.(waiters := n.waiters));
      assert SyncOk(ll, n'.(waiters := n.waiters)) == SyncOk(ll, n');
    } else {
      ReplacesLogs(ll, n, n', x, target);
      ReplacesDurable(ll, n, n', x, target);
      ReplacesSync(ll, n, n', x, target);
    }
    forall w | w in n'.waiters ensures WaiterOk(ll, n', w) {
      if w in n.waiters { assert WaiterOk(ll, n, w); }
    }
  }

  lemma AcceptAcks(ll: LeaderLogs, n: Node, n': Node, o: Outcome, x: nat, target: nat, commit: nat, a: Ack)
    requires LeaderLogsOk(ll) && NodeOk(ll, n) && Accepted(ll, n, n', o, x, target, commit) && AckOk(ll, n, a)
    ensures AckOk(ll, n', a)
  {
    if LogsUnchanged(n, n') { AckShrinks(ll, n, n', a); } else { AckReplaces(ll, n, n', x, target, a); }
  }

  lemma AcceptReply(ll: LeaderLogs, n: Node, n': Node, o: Outcome, x: nat, target: nat, commit: nat, i: Id)
    requires NodeOk(ll, n') && Accepted(ll, n, n', o, x, target, commit) && o.Matched?
    ensures AckOk(ll, n', Ack(n'.term, i, o.matchIndex))
  {
    HasShorter(n'.log, ll[n.term], target, o.matchIndex);
    AckNew(ll, n', i, o.matchIndex);
  }

  /** The leader of term `t` knows index `commit` to be committed. */
  ghost predicate CommitFrom(s: State, t: nat, commit: nat) {
    t in s.llog && Has(s.llog[t], s.committed, commit) && Known(s.commits, commit, t)
  }

  /** The request speaks of the leader log of the server's term. */
  ghost predicate RequestFrom(s: State, n: Node, prev: nat, prevTerm: nat, entries: Log, commit: nat) {
    FromLeader(s.llog, n, prev, prevTerm, entries) && CommitFrom(s, n.term, commit)
  }

  /** The server with its handled request still satisfies the invariant, and may
      report its match index. */
  ghost predicate Handled(s: State, i: Id, n': Node, o: Outcome) {
    && Inv(Put(s, i, n'))
    && (o.Matched? ==> AckOk(s.llog, n', Ack(n'.term, i, o.matchIndex)))
  }

  lemma AcceptedKeeps(s: State, i: Id, n': Node, o: Outcome, x: nat, target: nat, commit: nat)
    requires Inv(s) && i in s.voters && s.nodes[i].role == Follower
    requires Accepted(s.llog, s.nodes[i], n', o, x, target, commit) && CommitFrom(s, s.nodes[i].term, commit)
    ensures Handled(s, i, n', o)
  {
    var n := s.nodes[i];
    At(s, i);
    KnownInLeader(s, n, n.commit);
    AcceptNodeOk(s.llog, n, n', o, x, target, commit);
    AcceptCommit(s, n, n', x, target, commit);
    if o.Matched? { AcceptReply(s.llog, n, n', o, x, target, commit, i); }
    forall a | a in s.acks && a.node == i ensures AckOk(s.llog, n', a) {
      assert AckHeld(s, a);
      AcceptAcks(s.llog, n, n', o, x, target, commit, a);
    }
    RoleKept(s, Put(s, i, n'), i, n');
    MatchedFrame(s, Put(s, i, n'), i);
    PutKeeps(s, i, n');
  }

  /** A request behind the snapshot is acknowledged as it is. */
  lemma CoveredKeeps(s: State, i: Id, k: nat)
    requires Inv(s) && i in s.voters && s.nodes[i].term in s.llog && k <= s.nodes[i].snap
    requires Has(s.nodes[i].log, s.llog[s.nodes[i].term], s.nodes[i].snap)
    ensures Handled(s, i, s.nodes[i], Matched(s.nodes[i].term, k))
  {
    var n := s.nodes[i];
    At(s, i);
    PutPut(s, i, n, n);
    HasShorter(n.log, s.llog[n.term], n.snap, k);
    AckNew(s.llog, n, i, k);
  }

  lemma SnapInLeader(s: State, i: Id)
    requires Inv(s) && i in s.voters && s.nodes[i].term in s.llog
    ensures Has(s.nodes[i].log, s.llog[s.nodes[i].term], s.nodes[i].snap)
  {
    At(s, i);
    KnownInLeader(s, s.nodes[i], s.nodes[i].snap);
  }

  /** What a request of the server's own term does: nothing, an acknowledgement of
      what is behind the snapshot, or an accepted stretch of the leader's log. */
  ghost predicate Effect(s: State, n: Node, a: AppendArgs, n': Node, o: Outcome, x: nat, target: nat) {
    || (n' == n && o.Refused?)
    || (n' == n && o.Matched? && o.term == n.term && o.matchIndex <= n.snap)
    || (Accepted(s.llog, n, n', o, x, target, a.commit) && CommitFrom(s, n.term, a.commit))
  }

  lemma FitEffect(s: State, n: Node, a: AppendArgs, prev: nat, prevTerm: nat, entries: Log, n': Node, o: Outcome)
    returns (x: nat)
    requires LeaderLogsOk(s.llog) && Good(s.llog, n.log) && RequestFrom(s, n, prev, prevTerm, entries, a.commit)
    requires (n', o) == AcceptEntries(n, prev, prevTerm, entries, a.commit)
    ensures Effect(s, n, a, n', o, x, prev + |entries|)
  {
    x := AcceptEffect(s.llog, n, prev, prevTerm, entries, a.commit);
  }

  lemma AboveFits(s: State, n: Node, a: AppendArgs)
    requires AppendOk(s.llog, s.commits, s.committed, a) && a.term == n.term && n.snap <= a.prev
    ensures RequestFrom(s, n, a.prev, a.prevTerm, a.entries, a.commit)
  {}

  /** The head of the request that the snapshot covers is dropped; the rest is the
      leader's. */
  lemma CutFits(s: State, n: Node, a: AppendArgs, entries: Log)
    requires AppendOk(s.llog, s.commits, s.committed, a) && a.term == n.term
    requires Has(n.log, s.llog[n.term], n.snap) && a.prev < n.snap && n.snap - a.prev < |a.entries|
    requires entries == a.entries[n.snap - a.prev..]
    ensures RequestFrom(s, n, n.snap, TermAt(n.log, n.snap), entries, a.commit)
  {
    forall j | 0 <= j < |entries| ensures entries[j] == s.llog[a.term][n.snap + j] {
      assert entries[j] == a.entries[n.snap - a.prev + j];
    }
  }

  /** Below the snapshot the request is cut to what follows it. */
  lemma RequestCut(n: Node, a: AppendArgs)
    ensures n.snap <= a.prev ==> AcceptRequest(n, a) == AcceptEntries(n, a.prev, a.prevTerm, a.entries, a.commit)
    ensures a.prev < n.snap && n.snap - a.prev < |a.entries| ==>
      AcceptRequest(n, a) == AcceptEntries(n, n.snap, TermAt(n.log, n.snap), a.entries[n.snap - a.prev..], a.commit)
    ensures a.prev < n.snap && |a.entries| <= n.snap - a.prev ==>
      AcceptRequest(n, a) == (n, Matched(n.term, a.prev + |a.entries|))
  {}

  lemma RequestEffect(s: State, n: Node, a: AppendArgs, n': Node, o: Outcome) returns (x: nat, target: nat)
    requires LeaderLogsOk(s.llog) && Good(s.llog, n.log) && a.term == n.term
    requires AppendOk(s.llog, s.commits, s.committed, a) && Has(n.log, s.llog[n.term], n.snap)
    requires (n', o) == AcceptRequest(n, a)
    ensures Effect(s, n, a, n', o, x, target)
  {
    x, target := 0, a.prev + |a.entries|;
    if n.snap <= a.prev {
      x := AboveEffect(s, n, a, n', o);
    } else if n.snap - a.prev < |a.entries| {
      x, target := CutEffect(s, n, a, n', o);
    } else {
      RequestCut(n, a);
    }
  }

  /** A request that begins at or above the snapshot. */
  lemma AboveEffect(s: State, n: Node, a: AppendArgs, n': Node, o: Outcome) returns (x: nat)
    requires LeaderLogsOk(s.llog) && Good(s.llog, n.log) && a.term == n.term && n.snap <= a.prev
    requires AppendOk(s.llog, s.commits, s.committed, a) && Has(n.log, s.llog[n.term], n.snap)
    requires (n', o) == AcceptRequest(n, a)
    ensures Effect(s, n, a, n', o, x, a.prev + |a.entries|)
  {
    RequestCut(n, a);
    AboveFits(s, n, a);
    x := FitEffect(s, n, a, a.prev, a.prevTerm, a.entries, n', o);
  }

  /** A request the snapshot covers in part. */
  lemma CutEffect(s: State, n: Node, a: AppendArgs, n': Node, o: Outcome) returns (x: nat, target: nat)
    requires LeaderLogsOk(s.llog) && Good(s.llog, n.log) && a.term == n.term && a.prev < n.snap < a.prev + |a.entries|
    requires AppendOk(s.llog, s.commits, s.committed, a) && Has(n.log, s.llog[n.term], n.snap)
    requires (n', o) == AcceptRequest(n, a)
    ensures Effect(s, n, a, n', o, x, target)
  {
    var entries := a.entries[n.snap - a.prev..];
    RequestCut(n, a);
    CutFits(s, n, a, entries);
    x := FitEffect(s, n, a, n.snap, TermAt(n.log, n.snap), entries, n', o);
    target := n.snap + |entries|;
  }

  lemma EffectKeeps(s: State, i: Id, a: AppendArgs, n': Node, o: Outcome, x: nat, target: nat)
    requires Inv(s) && i in s.voters && s.nodes[i].role == Follower && s.nodes[i].term in s.llog
    requires Has(s.nodes[i].log, s.llog[s.nodes[i].term], s.nodes[i].snap)
    requires Effect(s, s.nodes[i], a, n', o, x, target)
    ensures Handled(s, i, n', o)
  {
    if n' == s.nodes[i] && o.Refused? {
      PutPut(s, i, n', n');
    } else if n' == s.nodes[i] && o.Matched? && o.matchIndex <= n'.snap {
      CoveredKeeps(s, i, o.matchIndex);
    } else {
      AcceptedKeeps(s, i, n', o, x, target, a.commit);
    }
  }

  /** The reply goes out once the request took effect. */
  lemma FinishKeeps(s: State, s': State, i: Id, n': Node, o: Outcome, read: Option<nat>)
    requires i in s.voters && Handled(s, i, n', o) && s' == Replied(Put(s, i, n'), i, n', o, read)
    requires read.Some? ==> read.value in s.fences
    ensures Inv(s')
  {
    ReplyKeeps(Put(s, i, n'), s', i, o, read);
  }

  lemma EffectInv(s: State, s': State, i: Id, m: Msg, n': Node, o: Outcome, x: nat, target: nat)
    requires Inv(s) && i in s.voters && s.nodes[i].role == Follower && s.nodes[i].term in s.llog
    requires Has(s.nodes[i].log, s.llog[s.nodes[i].term], s.nodes[i].snap)
    requires m in s.msgs && m.AppendReq?
    requires Effect(s, s.nodes[i], m.append, n', o, x, target)
    requires s' == Replied(Put(s, i, n'), i, n', o, m.read)
    ensures Inv(s')
  {
    EffectKeeps(s, i, m.append, n', o, x, target);
    FinishKeeps(s, s', i, n', o, m.read);
  }

  /** A request of the server's own term, once the server is a follower. */
  lemma DeliverKeeps(s: State, s': State, i: Id, m: Msg)
    requires Inv(s) && i in s.voters && s.nodes[i].role == Follower
    requires m in s.msgs && m.AppendReq? && m.append.term == s.nodes[i].term
    requires var (n', o) := AcceptRequest(s.nodes[i], m.append); s' == Replied(Put(s, i, n'), i, n', o, m.read)
    ensures Inv(s')
  {
    var (n', o) := AcceptRequest(s.nodes[i], m.append);
    At(s, i);
    SnapInLeader(s, i);
    var x, target := RequestEffect(s, s.nodes[i], m.append, n', o);
    EffectInv(s, s', i, m, n', o, x, target);
  }

  lemma RefusedKeeps(s: State, s': State, i: Id, m: Msg)
    requires Inv(s) && AppendNext(s, i, m, s') && m.append.term < s.nodes[i].term
    ensures Inv(s')
  {
    var n := s.nodes[i];
    PutPut(s, i, n, n);
    ReplyKeeps(s, s', i, Refused(n.term, 0, 0), m.read);
  }

  lemma AppendInv(s: State, s': State, i: Id, m: Msg)
    requires Inv(s) && AppendNext(s, i, m, s')
    ensures Inv(s')
  {
    var n, a := s.nodes[i], m.append;
    if a.term < n.term {
      RefusedKeeps(s, s', i, m);
    } else {
      var n1 := Follow(n, a.term);
      PutPut(s, i, n1, AcceptRequest(n1, a).0);
      FollowerKeeps(s, i, n1);
      DeliverKeeps(Put(s, i, n1), s', i, m);
    }
  }

  // ----- delayed replies

  /** A parked reply is confirmed only for what is durable in the leader's log. */
  lemma ConfirmedAck(s: State, i: Id, n: Node, w: Waiter)
    requires LeaderLogsOk(s.llog) && NodeOk(s.llog, n) && w in n.waiters && Decide(n, w).Confirm?
    requires n.term in s.llog ==> Has(n.log, s.llog[n.term], n.snap)
    ensures AckOk(s.llog, n, Ack(n.term, i, w.target))
  {
    assert WaiterOk(s.llog, n, w);
    assert n.log in n.vers;
    if w.target <= n.snap {
      HasShorter(n.log, s.llog[n.term], n.snap, w.target);
    } else {
      LogMatching(s.llog, n.log, s.llog[n.term], w.target);
    }
    AckNew(s.llog, n, i, w.target);
  }

  lemma AnswerLocal(s: State, n: Node, w: Waiter)
    requires NodeOk(s.llog, n) && NodeCommitOk(s.commits, s.committed, n)
    ensures LocalOk(s, n, n.(waiters := n.waiters - {w}))
  {
    TermStep(s.llog, n, n.(waiters := n.waiters - {w}));
  }

  lemma AnswerInv(s: State, s': State, i: Id, w: Waiter)
    requires Inv(s) && AnswerNext(s, i, w, s')
    ensures Inv(s')
  {
    var n := s.nodes[i];
    var n' := n.(waiters := n.waiters - {w});
    At(s, i);
    AnswerLocal(s, n, w);
    LocalKeeps(s, i, n');
    if Decide(n, w).Confirm? {
      if n.term in s.llog { KnownInLeader(s, n, n.snap); }
      ConfirmedAck(s, i, n, w);
      AckShrinks(s.llog, n, n', Ack(n.term, i, w.target));
      ReplyKeeps(Put(s, i, n'), s', i, Matched(n.term, w.target), None);
    }
  }

  // ----- read fences

  lemma ReadBeginFences(s: State, s': State, i: Id, r: nat)
    requires AcksOk(s) && CommitsOk(s) && FencesOk(s) && ReadBeginNext(s, i, r, s')
    requires RoleOk(s, i) && NodeCommitOk(s.commits, s.committed, s.nodes[i])
    ensures FencesOk(s')
  {
    var n := s.nodes[i];
    forall q | q in s'.fences ensures FenceOk(s'.llog, s'.commits, s'.voters, s'.fences[q]) {
      if q != r {
        assert FenceOk(s.llog, s.commits, s.voters, s.fences[q]);
      } else {
        forall c | c in s.commits && n.term < c.term ensures c.quorum !! {i} { QuorumTerm(s, i, c); }
      }
    }
  }

  lemma ReadBeginRequests(s: State, s': State, i: Id, r: nat)
    requires RequestsOk(s) && ReadBeginNext(s, i, r, s')
    requires RoleOk(s, i) && NodeCommitOk(s.commits, s.committed, s.nodes[i])
    ensures RequestsOk(s')
  {
    var n := s.nodes[i];
    assert AppendOk(s.llog, s.commits, s.committed, AppendArgs(n.term, |n.log|, LastTerm(n.log), [], n.commit));
  }

  lemma ReadBeginInv(s: State, s': State, i: Id, r: nat)
    requires Inv(s) && ReadBeginNext(s, i, r, s')
    ensures Inv(s')
  {
    At(s, i);
    ReadBeginFences(s, s', i, r);
    ReadBeginRequests(s, s', i, r);
    assert s'.nodes == s.nodes[i := s.nodes[i]];
    StillKeeps(s, s', i);
  }

  lemma ReadCountFences(s: State, s': State, i: Id, m: Msg)
    requires FencesOk(s) && ReadCountNext(s, i, m, s')
    ensures FencesOk(s')
  {
    forall q | q in s'.fences ensures FenceOk(s'.llog, s'.commits, s'.voters, s'.fences[q]) {
      assert FenceOk(s.llog, s.commits, s.voters, s.fences[q]);
    }
  }

  lemma ReadCountRest(s: State, s': State, i: Id, m: Msg)
    requires RequestsOk(s) && FencesOk(s) && ReadCountNext(s, i, m, s')
    ensures RequestsOk(s') && FencesOk(s') && OnlyRequests(s, s', i, s.nodes[i])
  {
    ReadCountFences(s, s', i, m);
    SameIsGrown(s.llog);
    RequestsGrow(s, s');
    assert s'.nodes == s.nodes[i := s.nodes[i]];
  }

  lemma ReadCountInv(s: State, s': State, i: Id, m: Msg)
    requires Inv(s) && ReadCountNext(s, i, m, s')
    ensures Inv(s')
  {
    ReadCountRest(s, s', i, m);
    StillKeeps(s, s', i);
  }

  // ----- every step

  lemma CountAckInv(s: State, s': State, i: Id, m: Msg)
    requires Inv(s) && CountAckNext(s, i, m, s')
    ensures Inv(s')
  {
    MatchedKeeps(s, i, m.from, m.matchIndex);
  }

  lemma ConfirmSnapshotInv(s: State, s': State, i: Id, peer: Id, k: nat)
    requires Inv(s) && ConfirmSnapshotNext(s, i, peer, k, s')
    ensures Inv(s')
  {
    At(s, i);
    MatchedKeeps(s, i, peer, k);
  }

  lemma SyncInv(s: State, s': State, i: Id, d: nat)
    requires Inv(s) && (SyncBeginNext(s, i, s') || SyncFlushNext(s, i, d, s') || SyncEndNext(s, i, s'))
    ensures Inv(s')
  {
    At(s, i);
    SyncKeeps(s, i, d);
  }

  lemma AdoptTermInv(s: State, s': State, i: Id, t: nat)
    requires Inv(s) && AdoptTermNext(s, i, t, s')
    ensures Inv(s')
  {
    FollowerKeeps(s, i, BecomeFollower(s.nodes[i], t));
  }

  lemma StepDownInv(s: State, s': State, i: Id)
    requires Inv(s) && StepDownNext(s, i, s')
    ensures Inv(s')
  {
    FollowerKeeps(s, i, s.nodes[i].(role := Follower));
  }

  /** Steps of an election up to the vote. */
  lemma VoteStepInv(s: State, step: Step, s': State)
    requires Inv(s) && Next(s, step, s') && (step.DoStartElection? || step.DoVote? || step.DoCountVote?)
    ensures Inv(s')
  {
    match step
    case DoStartElection(i) => StartElectionInv(s, s', i);
    case DoVote(i, m) => VoteInv(s, s', i, m);
    case DoCountVote(i, m) => CountVoteInv(s, s', i, m);
  }

  /** Steps that end an election or a term. */
  lemma TermStepInv(s: State, step: Step, s': State)
    requires Inv(s) && Next(s, step, s') && (step.DoBecomeLeader? || step.DoAdoptTerm? || step.DoStepDown?)
    ensures Inv(s')
  {
    match step
    case DoBecomeLeader(i) => BecomeLeaderInv(s, s', i);
    case DoAdoptTerm(i, t) => AdoptTermInv(s, s', i, t);
    case DoStepDown(i) => StepDownInv(s, s', i);
  }

  /** Steps that replicate. */
  lemma ReplicationStepInv(s: State, step: Step, s': State)
    requires Inv(s) && Next(s, step, s') && (step.DoSubmit? || step.DoSendAppend? || step.DoAppend?)
    ensures Inv(s')
  {
    match step
    case DoSubmit(i, kind, command) => SubmitInv(s, s', i, kind, command);
    case DoSendAppend(i, prev, count) => SendAppendKeeps(s, s', i, prev, count);
    case DoAppend(i, m) => AppendInv(s, s', i, m);
  }

  /** Steps that acknowledge and commit. */
  lemma CommitStepInv(s: State, step: Step, s': State)
    requires Inv(s) && Next(s, step, s') && (step.DoAnswer? || step.DoCountAck? || step.DoCommit?)
    ensures Inv(s')
  {
    match step
    case DoAnswer(i, w) => AnswerInv(s, s', i, w);
    case DoCountAck(i, m) => CountAckInv(s, s', i, m);
    case DoCommit(i, k) => CommitInv(s, s', i, k);
  }

  /** Steps of the syncer. */
  lemma SyncStepInv(s: State, step: Step, s': State)
    requires Inv(s) && Next(s, step, s') && (step.DoSyncBegin? || step.DoSyncFlush? || step.DoSyncEnd?)
    ensures Inv(s')
  {
    SyncInv(s, s', step.i, if step.DoSyncFlush? then step.d else 0);
  }

  /** Steps of the state machine and restarts. */
  lemma ApplyStepInv(s: State, step: Step, s': State)
    requires Inv(s) && Next(s, step, s') && (step.DoApply? || step.DoRestart?)
    ensures Inv(s')
  {
    match step
    case DoApply(i, k) => ApplyKeeps(s, s', i, k);
    case DoRestart(i, v, k) => RestartKeeps(s, s', i, v, k);
  }

  /** Steps that make or install a snapshot. */
  lemma SnapshotStepInv(s: State, step: Step, s': State)
    requires Inv(s) && Next(s, step, s') && (step.DoCapture? || step.DoInstall? || step.DoReload?)
    ensures Inv(s')
  {
    match step
    case DoCapture(i, k) => CaptureKeeps(s, s', i, k);
    case DoInstall(i, m) => InstallKeepsInv(s, s', i, m);
    case DoReload(i, v, data, k) => ReloadKeeps(s, s', i, v, data, k);
  }

  /** Steps of a leader that ships a snapshot. */
  lemma TransferStepInv(s: State, step: Step, s': State)
    requires Inv(s) && Next(s, step, s') && (step.DoSendSnapshot? || step.DoConfirmSnapshot?)
    ensures Inv(s')
  {
    match step
    case DoSendSnapshot(i) => SendSnapshotKeeps(s, s', i);
    case DoConfirmSnapshot(i, peer, k) => ConfirmSnapshotInv(s, s', i, peer, k);
  }

  /** Steps of a fenced read. */
  lemma ReadStepInv(s: State, step: Step, s': State)
    requires Inv(s) && Next(s, step, s') && (step.DoReadBegin? || step.DoReadCount?)
    ensures Inv(s')
  {
    match step
    case DoReadBegin(i, r) => ReadBeginInv(s, s', i, r);
    case DoReadCount(i, m) => ReadCountInv(s, s', i, m);
  }

  /** The invariant is inductive. */
  lemma NextInv(s: State, step: Step, s': State)
    requires Inv(s) && Next(s, step, s')
    ensures Inv(s')
  {
    if step.DoStartElection? || step.DoVote? || step.DoCountVote? {
      VoteStepInv(s, step, s');
    } else if step.DoBecomeLeader? || step.DoAdoptTerm? || step.DoStepDown? {
      TermStepInv(s, step, s');
    } else if step.DoSubmit? || step.DoSendAppend? || step.DoAppend? {
      ReplicationStepInv(s, step, s');
    } else if step.DoAnswer? || step.DoCountAck? || step.DoCommit? {
      CommitStepInv(s, step, s');
    } else if step.DoSyncBegin? || step.DoSyncFlush? || step.DoSyncEnd? {
      SyncStepInv(s, step, s');
    } else if step.DoApply? || step.DoRestart? {
      ApplyStepInv(s, step, s');
    } else if step.DoCapture? || step.DoInstall? || step.DoReload? {
      SnapshotStepInv(s, step, s');
    } else if step.DoSendSnapshot? || step.DoConfirmSnapshot? {
      TransferStepInv(s, step, s');
    } else {
      ReadStepInv(s, step, s');
    }
  }
}
