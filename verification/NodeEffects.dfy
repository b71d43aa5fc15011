/** What each handler of `RaftNodeSpec` does, said of the log, the term and the reply alone:
    exactly when a vote is granted, a request accepted, an index committed. */
module NodeEffects {
  import opened Basics
  import opened RaftLog
  import opened RaftNodeSpec

  // ----- votes

  /** A log that ends in (`lastTerm`, `lastIndex`) is at least as up to date: a later last
      term, or the same one and not shorter. */
  ghost predicate NotBehind(lastTerm: nat, lastIndex: nat, log: Log) {
    lastTerm > LastTerm(log) || (lastTerm == LastTerm(log) && lastIndex >= |log|)
  }

  /** A vote is granted exactly to a voter whose request is of this term or a later one, if
      no other candidate of the term has the vote and the log is not behind. */
  lemma VoteEffect(n: Node, voters: set<Id>, a: VoteArgs)
    ensures var (n', r) := HandleRequestVote(n, voters, a);
      && (r.granted <==> && a.candidate in voters && a.term >= n.term && NotBehind(a.lastTerm, a.lastIndex, n.log)
                         && (a.term > n.term || n.vote == None || n.vote == Some(a.candidate)))
      && n'.term == r.term == (if a.candidate in voters && a.term > n.term then a.term else n.term)
      && n'.vote == (if r.granted then Some(a.candidate) else if n'.term > n.term then None else n.vote)
      && n' == n.(term := n'.term, vote := n'.vote, role := if n'.term > n.term then Follower else n.role)
  {}

  /** A candidate stands in the next term, with its own vote. */
  lemma CampaignEffect(n: Node, self: Id)
    ensures var n' := StartElection(n, self);
      n'.term == n.term + 1 && n'.vote == Some(self) && n'.role == Candidate && n'.votes == {self} && n'.log == n.log && n'.vers == n.vers
  {}

  /** A new leader keeps its log and adds one empty entry of its term, not yet durable. */
  lemma LeadEffect(n: Node)
    ensures var n' := BecomeLeader(n);
      && n'.role == Leader && n'.term == n.term && n'.matched == map[] && n'.durable == n.durable && n'.commit == n.commit
      && n'.log == n.log + [Entry(n.term, |n.log| + 1, Normal, [])] && n'.vers == n.vers + [n'.log]
  {}

  // ----- AppendEntries

  function End(a: AppendArgs): nat { a.prev + |a.entries| }

  /** The log behind an accepted request: as it was if it holds all of the entries, else the
      entries from the first it does not hold on, and nothing behind them; what is replaced
      is no longer durable. */
  ghost predicate Merged(log: Log, durable: nat, prev: nat, entries: Log, log': Log, durable': nat) {
    || (log' == log && durable' == durable && prev + |entries| <= |log| && forall j :: 0 <= j < |entries| ==> log[prev + j].term == entries[j].term)
    || exists r: nat :: MergedFrom(log, durable, prev, entries, r, log', durable')
  }

  ghost predicate MergedFrom(log: Log, durable: nat, prev: nat, entries: Log, r: nat, log': Log, durable': nat) {
    && r < |entries| && prev + r <= |log| && (forall j :: 0 <= j < r ==> log[prev + j].term == entries[j].term)
    && (prev + r < |log| ==> log[prev + r].term != entries[r].term)
    && log' == log[..prev + r] + entries[r..] && durable' == Min(durable, prev + r)
  }

  lemma TakeMerges(n: Node, prev: nat, entries: Log)
    requires prev <= |n.log|
    ensures var n' := TakeEntries(n, prev, entries);
      && Merged(n.log, n.durable, prev, entries, n'.log, n'.durable)
      && n' == n.(log := n'.log, vers := n'.vers, durable := n'.durable)
  {
    var r := FirstNew(n.log, prev, entries, 0);
    FirstNewSpec(n.log, prev, entries, 0);
    var n' := TakeEntries(n, prev, entries);
    if r < |entries| { assert MergedFrom(n.log, n.durable, prev, entries, r, n'.log, n'.durable); }
  }

  /** What the log says of a request that follows (`prev`, `prevTerm`). */
  ghost predicate Fits(log: Log, prev: nat, prevTerm: nat) {
    prev <= |log| && (prev > 0 ==> TermAt(log, prev) == prevTerm)
  }

  lemma EntriesRefused(n: Node, prev: nat, prevTerm: nat, entries: Log, commit: nat, n': Node, o: Outcome)
    requires AcceptEntries(n, prev, prevTerm, entries, commit) == (n', o)
    ensures o.Refused? <==> !Fits(n.log, prev, prevTerm)
    ensures o.Refused? ==> n' == n && o.term == n.term
    ensures prev > |n.log| ==> o == Refused(n.term, |n.log| + 1, 0)
    ensures o.Refused? && prev <= |n.log| ==> RunStart(n.log, n.snap + 1, prev, o.conflictIndex) && o.conflictTerm == TermAt(n.log, prev)
  {
    if 0 < prev <= |n.log| { ConflictStartsRun(n.log, n.snap + 1, prev); }
  }

  /** The acknowledgement of entries up to `target`: what is durable of them now, or a reply
      that waits for the rest. */
  ghost predicate Answered(n: Node, target: nat, heartbeat: bool, n': Node, o: Outcome) {
    if heartbeat then
      o == Matched(n'.term, Min(n'.durable, target)) && n'.waiters == n.waiters
    else if n'.durable >= target then
      o == Matched(n'.term, target) && n'.waiters == n.waiters
    else
      o == Parked(Waiter(n'.term, target, TermAt(n'.log, target))) && n'.waiters == n.waiters + {o.waiter}
  }

  /** What a server does with an accepted request of its term: the entries are in the log,
      the commit index follows the leader's as far as the request goes, and the reply says
      how much of that is durable, or waits for it. */
  ghost predicate Accepted(n: Node, prev: nat, entries: Log, commit: nat, n': Node, o: Outcome) {
    && Merged(n.log, n.durable, prev, entries, n'.log, n'.durable) && n'.commit == Max(n.commit, Min(commit, prev + |entries|))
    && Answered(n, prev + |entries|, entries == [], n', o)
  }

  lemma EntriesAccepted(n: Node, prev: nat, prevTerm: nat, entries: Log, commit: nat, n': Node, o: Outcome)
    requires Fits(n.log, prev, prevTerm) && AcceptEntries(n, prev, prevTerm, entries, commit) == (n', o)
    ensures Accepted(n, prev, entries, commit, n', o) && n'.term == n.term
  {
    TakeMerges(n, prev, entries);
  }

  /** Joining the sender's term changes nothing that acceptance speaks of. */
  lemma FollowedAccepts(n: Node, term: nat, prev: nat, entries: Log, commit: nat, n': Node, o: Outcome)
    requires Accepted(Follow(n, term), prev, entries, commit, n', o)
    ensures Accepted(n, prev, entries, commit, n', o)
  {}

  /** A request is refused exactly if it is of an older term, leaves a gap, or does not agree
      at the index it follows, unless the snapshot covers that index. */
  ghost predicate Refuses(n: Node, a: AppendArgs) {
    a.term < n.term || (a.prev >= n.snap && !Fits(n.log, a.prev, a.prevTerm))
  }

  /** A refused request changes nothing but the term; the hint is where the log ends, or
      where the run of the term that does not agree begins. */
  lemma RefusalEffect(n: Node, a: AppendArgs, n': Node, o: Outcome)
    requires n.snap <= |n.log| && HandleAppendEntries(n, a) == (n', o)
    ensures o.Refused? <==> Refuses(n, a)
    ensures a.term < n.term ==> n' == n && o == Refused(n.term, 0, 0)
    ensures a.term >= n.term && Refuses(n, a) ==>
      && n' == n.(term := a.term, vote := if a.term > n.term then None else n.vote, role := Follower)
      && o.term == a.term
      && (a.prev > |n.log| ==> o.conflictIndex == |n.log| + 1)
      && (a.prev <= |n.log| ==> RunStart(n.log, n.snap + 1, a.prev, o.conflictIndex) && o.conflictTerm == TermAt(n.log, a.prev))
  {
    if a.term >= n.term {
      var f := Follow(n, a.term);
      if a.prev >= n.snap {
        EntriesRefused(f, a.prev, a.prevTerm, a.entries, a.commit, n', o);
      } else if End(a) > n.snap {
        EntriesRefused(f, n.snap, TermAt(n.log, n.snap), a.entries[n.snap - a.prev..], a.commit, n', o);
      }
    }
  }

  lemma AcceptEffect(n: Node, a: AppendArgs, n': Node, o: Outcome)
    requires n.snap <= a.prev && !Refuses(n, a) && HandleAppendEntries(n, a) == (n', o)
    ensures Accepted(n, a.prev, a.entries, a.commit, n', o) && n'.term == a.term
  {
    EntriesAccepted(Follow(n, a.term), a.prev, a.prevTerm, a.entries, a.commit, n', o);
    FollowedAccepts(n, a.term, a.prev, a.entries, a.commit, n', o);
  }

  lemma RestAccepted(n: Node, a: AppendArgs, rest: Log, n': Node, o: Outcome)
    requires n.snap <= |n.log| && AcceptEntries(n, n.snap, TermAt(n.log, n.snap), rest, a.commit) == (n', o)
    ensures Accepted(n, n.snap, rest, a.commit, n', o) && n'.term == n.term
  {
    EntriesAccepted(n, n.snap, TermAt(n.log, n.snap), rest, a.commit, n', o);
  }

  /** Of a request that begins below the snapshot, only what the snapshot does not cover. */
  lemma AcceptRestEffect(n: Node, a: AppendArgs, n': Node, o: Outcome)
    requires a.prev < n.snap < End(a) && n.snap <= |n.log| && !Refuses(n, a) && HandleAppendEntries(n, a) == (n', o)
    ensures Accepted(n, n.snap, a.entries[n.snap - a.prev..], a.commit, n', o) && n'.term == a.term
  {
    RestAccepted(Follow(n, a.term), a, a.entries[n.snap - a.prev..], n', o);
    FollowedAccepts(n, a.term, n.snap, a.entries[n.snap - a.prev..], a.commit, n', o);
  }

  /** A request the snapshot covers is confirmed as it is. */
  lemma CoveredEffect(n: Node, a: AppendArgs)
    requires !Refuses(n, a) && a.prev < n.snap && End(a) <= n.snap
    ensures HandleAppendEntries(n, a).1 == Matched(a.term, End(a))
    ensures HandleAppendEntries(n, a).0 == n.(term := a.term, vote := if a.term > n.term then None else n.vote, role := Follower)
  {}

  // ----- durability and commit

  /** A finished sync makes its tail durable exactly if the entry at its end is still there. */
  lemma SyncEffect(n: Node)
    requires n.sync.Flushed?
    ensures var i, n' := |n.sync.tail|, SyncEnd(n);
      && n'.durable == (if i > n.durable && TermAt(n.log, i) == LastTerm(n.sync.tail) then i else n.durable)
      && n' == n.(sync := Idle, durable := n'.durable)
  {}

  /** What a sync captures and flushes is the log as it was when it began. */
  lemma CaptureEffect(n: Node, d: nat)
    requires n.vers != [] && |n.vers| - 1 <= d < |n.vers|
    ensures SyncFlush(SyncBegin(n), d) == n.(sync := Flushed(n.log), vers := n.vers[d..])
  {}

  /** An index can be committed exactly if it is new, of the leader's own term, and more than
      half of the voters hold it: peers by what they confirmed, the leader by its own fsync. */
  lemma CommitEffect(n: Node, self: Id, voters: set<Id>, k: nat)
    ensures CanCommit(n, self, voters, k) <==>
      && n.commit < k <= |n.log| && n.log[k - 1].term == n.term
      && 2 * |set p | p in voters && (if p == self then k <= n.durable else p in n.matched && k <= n.matched[p])| > |voters|
  {
    if k > 0 {
      assert Holders(n, self, voters, k) == set p | p in voters && (if p == self then k <= n.durable else p in n.matched && k <= n.matched[p]);
    }
  }

  // ----- parked replies

  /** A reply whose fate is success: its term still runs, and a snapshot or an fsync covers
      entries that are still those of its request. */
  ghost predicate Confirmed(n: Node, w: Waiter) {
    n.term == w.term && (w.target <= n.snap || (TermAt(n.log, w.target) == w.targetTerm && w.target <= n.durable))
  }

  /** One that has still to wait for an fsync. */
  ghost predicate Waits(n: Node, w: Waiter) {
    n.term == w.term && n.snap < w.target && TermAt(n.log, w.target) == w.targetTerm && n.durable < w.target
  }

  lemma DecideEffect(n: Node, w: Waiter)
    ensures Decide(n, w).Confirm? <==> Confirmed(n, w)
    ensures Decide(n, w).Wait? <==> Waits(n, w)
  {}

  // ----- applying, snapshots, restarts

  lemma ApplyEffect(n: Node, k: nat)
    requires |n.applied| <= k <= |n.log|
    ensures var n' := Apply(n, k);
      && n' == n.(applied := n'.applied) && |n'.applied| == k && n.applied <= n'.applied
      && forall i :: |n.applied| <= i < k ==> n'.applied[i] == n.log[i]
  {}

  /** An installed snapshot is the head of the log; what follows it is kept exactly if the log
      agrees with it at its end. */
  lemma InstallEffect(n: Node, data: Log)
    ensures var n' := Install(n, data);
      && data <= n'.log && n'.snap == |data| && n'.applied == data && n'.commit == Max(n.commit, |data|)
      && n'.durable == |n'.log| && n'.vers == [n'.log] && n'.term == n.term && n'.vote == n.vote && n'.role == n.role
      && (if |data| < |n.log| && TermAt(n.log, |data|) == LastTerm(data)
          then |n'.log| == |n.log| && forall i :: |data| <= i < |n.log| ==> n'.log[i] == n.log[i]
          else n'.log == data)
  {}

  /** A restart comes back as a follower with the log it finds, all of it durable, and with
      term and vote as saved unless the log ends in a later term. */
  lemma RestartEffect(n: Node, log: Log, k: nat)
    requires k <= |n.applied|
    ensures var n' := Restart(n, log, k);
      && n'.log == log && n'.vers == [log] && n'.durable == |log| && n'.snap == n.snap && n'.role == Follower
      && n'.commit == k && n'.applied == n.applied[..k] && n'.waiters == {} && n'.matched == map[]
      && n'.term == Max(n.term, LastTerm(log)) && n'.vote == (if LastTerm(log) > n.term then None else n.vote)
  {}
}
