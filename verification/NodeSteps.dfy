/** What each handler of one server does to the logs a crash may leave. */
module NodeSteps {
  import opened Basics
  import opened RaftLog
  import opened RaftNodeSpec
  import opened Cluster
  import opened Invariant

  /** Only the logs, the term, the syncer and the parked replies matter here. */
  ghost predicate SameLogs(n: Node, n': Node) {
    && n'.log == n.log && n'.snap == n.snap && n'.vers == n.vers && n'.durable == n.durable
    && n'.sync == n.sync && n'.waiters <= n.waiters
  }

  lemma TermStep(ll: LeaderLogs, n: Node, n': Node)
    requires NodeOk(ll, n) && SameLogs(n, n') && n.term <= n'.term
    ensures NodeOk(ll, n')
  {
    assert n.log in n.vers;
    assert TermsUpTo(n.log, n.term);
    if n'.term > n.term {
      assert TermDurable(n'.vers, n'.term, n'.log, n'.durable);
      assert SyncOk(ll, n');
    }
  }

  lemma GrownStep(ll: LeaderLogs, ll': LeaderLogs, n: Node)
    requires NodeOk(ll, n) && Grown(ll, ll')
    ensures NodeOk(ll', n)
  {
    forall v | v in n.vers ensures Good(ll', v) {
      GoodGrown(ll, ll', v);
    }
    if !n.sync.Idle? { GoodGrown(ll, ll', n.sync.tail); }
    forall w | w in n.waiters ensures WaiterOk(ll', n, w) {
      assert WaiterOk(ll, n, w);
    }
  }

  // ----- a leader appends

  lemma OwnVersion(n: Node, kind: Kind, command: seq<Byte>, v: Log)
    requires v in AppendOwn(n, kind, command).vers
    ensures v in n.vers || v == AppendOwn(n, kind, command).log
  {}

  lemma AppendOwnStep(ll: LeaderLogs, ll': LeaderLogs, n: Node, kind: Kind, command: seq<Byte>)
    requires NodeOk(ll, n) && Grown(ll, ll') && n.term >= 1
    requires n.term in ll' && ll'[n.term] == AppendOwn(n, kind, command).log
    ensures NodeOk(ll', AppendOwn(n, kind, command))
  {
    GrownStep(ll, ll', n);
    var n' := AppendOwn(n, kind, command);
    assert n.log in n.vers;
    forall v | v in n'.vers
      ensures Good(ll', v) && TermsUpTo(v, n'.term) && Has(v, n'.log, n'.snap)
    {
      OwnVersion(n, kind, command, v);
      if v == n'.log { GoodAppend(ll, ll', n.log, n'.log[|n.log|]); } else { HasGrownRight(v, n.log, n'.log, n.snap); }
      if v == n'.log { HasExtend(n.log, n'.log, n'.log, n.snap) by { assert n'.log[..n.snap] == n.log[..n.snap]; } }
    }
    AppendOwnDurable(n, kind, command);
    AppendOwnSync(ll', n, kind, command);
    forall w | w in n'.waiters ensures WaiterOk(ll', n', w) {
      assert WaiterOk(ll', n, w);
    }
  }

  lemma AppendOwnAllHave(n: Node, vers: seq<Log>, kind: Kind, command: seq<Byte>, log: Log, j: nat)
    requires vers != [] && vers[|vers| - 1] == n.log
    requires AllHave(vers, log, j)
    ensures AllHave(vers + [AppendOwn(n, kind, command).log], log, j)
  {
    var log' := AppendOwn(n, kind, command).log;
    assert n.log in vers;
    forall v | v in vers + [log'] ensures Has(v, log, j) {
      if v !in vers { HasExtend(n.log, log', log, j); }
    }
  }

  lemma AppendOwnDurable(n: Node, kind: Kind, command: seq<Byte>)
    requires n.vers != [] && n.vers[|n.vers| - 1] == n.log
    requires TermDurable(n.vers, n.term, n.log, n.durable) && n.durable <= |n.log|
    ensures TermDurable(AppendOwn(n, kind, command).vers, n.term, AppendOwn(n, kind, command).log, n.durable)
  {
    var n' := AppendOwn(n, kind, command);
    forall j | 0 < j <= n.durable && n'.log[j - 1].term == n'.term ensures AllHave(n'.vers, n'.log, j) {
      assert n.log[j - 1].term == n.term;
      AppendOwnAllHave(n, n.vers, kind, command, n.log, j);
      forall v | v in n'.vers ensures Has(v, n'.log, j) {
        HasGrownRight(v, n.log, n'.log, j);
      }
    }
  }

  lemma AppendOwnSync(ll: LeaderLogs, n: Node, kind: Kind, command: seq<Byte>)
    requires n.vers != [] && n.vers[|n.vers| - 1] == n.log
    requires SyncOk(ll, n)
    ensures SyncOk(ll, AppendOwn(n, kind, command))
  {
    var n' := AppendOwn(n, kind, command);
    match n.sync
    case Idle =>
    case Captured(tail, base) =>
      assert n'.vers[base..] == n.vers[base..] + [n'.log];
      forall j | 0 < j <= |tail| && tail[j - 1].term == n'.term ensures AllHave(n'.vers[base..], tail, j) {
        AppendOwnAllHave(n, n.vers[base..], kind, command, tail, j);
      }
    case Flushed(tail) =>
      forall j | 0 < j <= |tail| && tail[j - 1].term == n'.term ensures AllHave(n'.vers, tail, j) {
        AppendOwnAllHave(n, n.vers, kind, command, tail, j);
      }
  }

  // ----- the syncer

  lemma SyncSteps(ll: LeaderLogs, n: Node, d: nat)
    requires NodeOk(ll, n)
    ensures n.sync.Idle? ==> NodeOk(ll, SyncBegin(n))
    ensures n.sync.Captured? && n.sync.base <= d < |n.vers| ==> NodeOk(ll, SyncFlush(n, d))
    ensures n.sync.Flushed? ==> NodeOk(ll, SyncEnd(n))
  {
    assert n.log in n.vers;
    if n.sync.Flushed? {
      SyncEndStep(ll, n);
    } else if n.sync.Idle? {
      assert n.vers[|n.vers| - 1..] == [n.log];
    } else if n.sync.base <= d < |n.vers| {
      SyncFlushStep(ll, n, d);
    }
  }

  lemma SyncFlushStep(ll: LeaderLogs, n: Node, d: nat)
    requires NodeOk(ll, n) && n.sync.Captured? && n.sync.base <= d < |n.vers|
    ensures NodeOk(ll, SyncFlush(n, d))
  {
    var n', tail, rest := SyncFlush(n, d), n.sync.tail, n.vers[n.sync.base..];
    assert forall v :: v in n'.vers ==> v in rest && v in n.vers;
    forall j | 0 < j <= |tail| && tail[j - 1].term == n'.term ensures AllHave(n'.vers, tail, j) {
      assert AllHave(rest, tail, j);
    }
    forall j | 0 < j <= n'.durable && n'.log[j - 1].term == n'.term ensures AllHave(n'.vers, n'.log, j) {
      assert AllHave(n.vers, n.log, j);
    }
  }

  /** The term check suffices: the captured tail is still in the log, so what the
      flush covered is what the log holds up to there. */
  lemma SyncEndStep(ll: LeaderLogs, n: Node)
    requires NodeOk(ll, n) && n.sync.Flushed?
    ensures NodeOk(ll, SyncEnd(n))
  {
    var n' := SyncEnd(n);
    var tail := n.sync.tail;
    assert n.log in n.vers;
    if n'.durable != n.durable {
      LogMatching(ll, n.log, tail, |tail|);
      forall j | 0 < j <= n'.durable && n'.log[j - 1].term == n'.term ensures AllHave(n'.vers, n'.log, j) {
        HasAt(n.log, tail, |tail|, j - 1);
        HasShorter(n.log, tail, |tail|, j);
        assert AllHave(n.vers, tail, j);
        forall v | v in n'.vers ensures Has(v, n'.log, j) { HasVia(v, tail, n.log, j); }
      }
    }
  }

  // ----- a follower accepts entries

  lemma VersionsArePrefixes(p: Log, x: nat, target: nat, v: Log)
    requires x <= target <= |p| && v in Versions(p[..x], p[x..target])
    ensures x < |v| <= target && v == p[..|v|]
  {
    var j :| 0 <= j < target - x && v == Versions(p[..x], p[x..target])[j];
    assert v == p[..x] + p[x..target][..j + 1] == p[..x + j + 1];
  }

  /** The follower replaces what follows index `x` by the leader's entries up to
      `target`; up to `x` it agreed, and right after `x` it did not. */
  ghost predicate Replaces(ll: LeaderLogs, n: Node, n': Node, x: nat, target: nat) {
    && n.term in ll && x < target <= |ll[n.term]|
    && var p := ll[n.term];
    && Has(n.log, p, x) && (x < |n.log| ==> n.log[x].term != p[x].term)
    && n.snap <= x
    && n'.log == p[..target]
    && n'.vers == n.vers + Versions(p[..x], p[x..target])
    && n'.durable == Min(n.durable, x)
    && n'.term == n.term && n'.snap == n.snap && n'.sync == n.sync
  }

  /** What the follower shares with the leader ends at `x`. */
  lemma SharedBelow(ll: LeaderLogs, n: Node, n': Node, x: nat, target: nat, log: Log, j: nat)
    requires Replaces(ll, n, n', x, target)
    requires Has(n.log, log, j) && Has(log, ll[n.term], j)
    ensures j <= x
  {
    if x < j {
      HasAt(n.log, log, j, x);
      HasAt(log, ll[n.term], j, x);
      assert false;
    }
  }

  lemma ReplacesAllHave(ll: LeaderLogs, n: Node, n': Node, x: nat, target: nat, base: nat, log: Log, j: nat)
    requires Replaces(ll, n, n', x, target) && base <= |n.vers|
    requires AllHave(n.vers[base..], log, j) && Has(ll[n.term], log, j) && j <= x
    ensures AllHave(n'.vers[base..], log, j)
  {
    var p := ll[n.term];
    assert n'.vers[base..] == n.vers[base..] + Versions(p[..x], p[x..target]);
    forall v | v in n'.vers[base..] ensures Has(v, log, j) {
      if v !in n.vers[base..] {
        VersionsArePrefixes(p, x, target, v);
        assert v[..j] == p[..j];
      }
    }
  }

  lemma ReplacesLogs(ll: LeaderLogs, n: Node, n': Node, x: nat, target: nat)
    requires LeaderLogsOk(ll) && NodeOk(ll, n) && Replaces(ll, n, n', x, target)
    ensures LogsOk(ll, n')
  {
    var p := ll[n.term];
    var vs := Versions(p[..x], p[x..target]);
    assert n'.vers[|n'.vers| - 1] == vs[|vs| - 1] == p[..x] + p[x..target] == n'.log;
    assert n.log in n.vers;
    HasShorter(n.log, p, x, n.snap);
    assert n'.log[..n.snap] == p[..n.snap];
    forall v | v in n'.vers
      ensures Good(ll, v) && TermsUpTo(v, n'.term) && Has(v, n'.log, n'.snap)
    {
      if v !in n.vers {
        VersionsArePrefixes(p, x, target, v);
        GoodPrefix(ll, p, |v|);
        assert TermsUpTo(p, n.term);
        assert v[..n.snap] == p[..n.snap];
      }
    }
  }

  lemma ReplacesDurable(ll: LeaderLogs, n: Node, n': Node, x: nat, target: nat)
    requires LeaderLogsOk(ll) && NodeOk(ll, n) && Replaces(ll, n, n', x, target)
    ensures TermDurable(n'.vers, n'.term, n'.log, n'.durable)
  {
    var p := ll[n.term];
    forall j | 0 < j <= n'.durable && n'.log[j - 1].term == n'.term ensures AllHave(n'.vers, n'.log, j) {
      HasShorter(n.log, p, x, j);
      HasAt(n.log, p, x, j - 1);
      assert AllHave(n.vers, n.log, j);
      assert n.vers[0..] == n.vers && n'.vers[0..] == n'.vers;
      ReplacesAllHave(ll, n, n', x, target, 0, n.log, j);
      assert n'.log[..j] == p[..j] == n.log[..j];
      forall v | v in n'.vers ensures Has(v, n'.log, j) {}
    }
  }

  lemma ReplacesSync(ll: LeaderLogs, n: Node, n': Node, x: nat, target: nat)
    requires LeaderLogsOk(ll) && NodeOk(ll, n) && Replaces(ll, n, n', x, target)
    ensures SyncOk(ll, n')
  {
    var p := ll[n.term];
    assert n.log in n.vers;
    match n.sync
    case Idle =>
    case Captured(tail, base) =>
      ReplacesTail(ll, n, n', x, target, base, tail);
    case Flushed(tail) =>
      assert n.vers[0..] == n.vers && n'.vers[0..] == n'.vers;
      ReplacesTail(ll, n, n', x, target, 0, tail);
  }

  lemma ReplacesTail(ll: LeaderLogs, n: Node, n': Node, x: nat, target: nat, base: nat, tail: Log)
    requires Replaces(ll, n, n', x, target) && LogsOk(ll, n) && Good(ll, tail) && base < |n.vers|
    requires TermDurable(n.vers[base..], n.term, tail, |tail|)
    ensures TermDurable(n'.vers[base..], n'.term, tail, |tail|)
  {
    assert n.log in n.vers[base..];
    forall j | 0 < j <= |tail| && tail[j - 1].term == n'.term ensures AllHave(n'.vers[base..], tail, j) {
      assert AllHave(n.vers[base..], tail, j);
      assert Has(n.log, tail, j);
      assert Carries(ll, tail, j);
      SharedBelow(ll, n, n', x, target, tail, j);
      ReplacesAllHave(ll, n, n', x, target, base, tail, j);
    }
  }

  /** What the server acknowledged before is still there after the overwrite, or
      the overwriting leader itself never had it. */
  lemma ReplacesKeeps(ll: LeaderLogs, n: Node, n': Node, x: nat, target: nat, t: nat, k: nat)
    requires LeaderLogsOk(ll) && NodeOk(ll, n) && Replaces(ll, n, n', x, target)
    requires OwnEntry(ll, t, k) && t <= n.term && Kept(ll, n, t, k)
    ensures Kept(ll, n', t, k)
  {
    if AllHave(n.vers, ll[t], k) {
      assert n.log in n.vers;
      assert Has(n.log, ll[t], k);
      if Has(ll[n.term], ll[t], k) {
        SharedBelow(ll, n, n', x, target, ll[t], k);
        assert n.vers[0..] == n.vers && n'.vers[0..] == n'.vers;
        ReplacesAllHave(ll, n, n', x, target, 0, ll[t], k);
      } else {
        assert t < n.term;
        assert LostBy(ll, t, k, n'.term);
      }
    }
  }

  // ----- the effect of AcceptEntries

  /** The request agrees with the leader's log of the server's current term. */
  ghost predicate FromLeader(ll: LeaderLogs, n: Node, prev: nat, prevTerm: nat, entries: Log) {
    && n.term in ll
    && var p := ll[n.term];
    && n.snap <= prev && Piece(entries, p, prev)
    && (prevTerm == TermAt(p, prev) || Has(n.log, p, prev))
  }

  ghost predicate LogsUnchanged(n: Node, n': Node) {
    n'.log == n.log && n'.vers == n.vers && n'.durable == n.durable
  }

  /** The entries the follower already holds extend the agreement. */
  lemma SharedGrows(ll: LeaderLogs, log: Log, p: Log, prev: nat, entries: Log)
    requires Good(ll, log) && Good(ll, p)
    requires prev + |entries| <= |p| && entries == p[prev..prev + |entries|] && Has(log, p, prev)
    ensures Has(log, p, prev + FirstNew(log, prev, entries, 0))
  {
    var k := FirstNew(log, prev, entries, 0);
    FirstNewSpec(log, prev, entries, 0);
    if k > 0 {
      assert log[prev + k - 1].term == entries[k - 1].term == p[prev + k - 1].term;
      LogMatching(ll, log, p, prev + k);
    }
  }

  lemma OverwriteReplaces(ll: LeaderLogs, n: Node, x: nat, target: nat)
    requires n.term in ll && n.snap <= x < target <= |ll[n.term]|
    requires Has(n.log, ll[n.term], x) && (x < |n.log| ==> n.log[x].term != ll[n.term][x].term)
    ensures Replaces(ll, n, Overwrite(n, x, ll[n.term][x..target]), x, target)
    ensures Has(Overwrite(n, x, ll[n.term][x..target]).log, ll[n.term], target)
  {
    var p := ll[n.term];
    assert n.log[..x] + p[x..target] == p[..target];
    assert p[..target][..target] == p[..target];
  }

  lemma TakeEffect(ll: LeaderLogs, n: Node, prev: nat, entries: Log) returns (x: nat)
    requires LeaderLogsOk(ll) && Good(ll, n.log)
    requires n.term in ll && n.snap <= prev && prev + |entries| <= |ll[n.term]|
    requires entries == ll[n.term][prev..prev + |entries|]
    requires Has(n.log, ll[n.term], prev)
    ensures var n' := TakeEntries(n, prev, entries);
      && n' == n.(log := n'.log, vers := n'.vers, durable := n'.durable)
      && Has(n'.log, ll[n.term], prev + |entries|)
      && (LogsUnchanged(n, n') || Replaces(ll, n, n', x, prev + |entries|))
  {
    var k := FirstNew(n.log, prev, entries, 0);
    FirstNewSpec(n.log, prev, entries, 0);
    x := prev + k;
    SharedGrows(ll, n.log, ll[n.term], prev, entries);
    if k < |entries| {
      assert entries[k] == ll[n.term][x];
      assert entries[k..] == ll[n.term][x..prev + |entries|];
      OverwriteReplaces(ll, n, x, prev + |entries|);
    }
  }

  /** An accepted request leaves the log agreeing with the leader's up to the last
      index the request covers; nothing else moved, or `Replaces` says what. */
  ghost predicate Accepted(ll: LeaderLogs, n: Node, n': Node, o: Outcome, x: nat, target: nat, commit: nat) {
    && n.term in ll
    && n' == n.(log := n'.log, vers := n'.vers, durable := n'.durable, commit := n'.commit, waiters := n'.waiters)
    && Has(n'.log, ll[n.term], target)
    && n'.commit == Max(n.commit, Min(commit, target))
    && (LogsUnchanged(n, n') || Replaces(ll, n, n', x, target))
    && (o.Matched? ==> n'.waiters == n.waiters && o.matchIndex <= target && o.matchIndex <= n'.durable)
    && (!o.Matched? ==>
          && 0 < target <= |ll[n.term]|
          && n'.waiters == n.waiters + {Waiter(n.term, target, TermAt(ll[n.term], target))})
  }

  lemma AcknowledgeEffect(ll: LeaderLogs, n: Node, n1: Node, x: nat, target: nat, commit: nat, heartbeat: bool)
    requires n.term in ll && n1 == n.(log := n1.log, vers := n1.vers, durable := n1.durable)
    requires Has(n1.log, ll[n.term], target) && (!heartbeat ==> 0 < target)
    requires LogsUnchanged(n, n1) || Replaces(ll, n, n1, x, target)
    ensures var (n', o) := Acknowledge(n1, target, commit, heartbeat);
      !o.Refused? && Accepted(ll, n, n', o, x, target, commit)
  {
    if target > 0 { HasAt(n1.log, ll[n.term], target, target - 1); }
  }

  lemma AcceptEffect(ll: LeaderLogs, n: Node, prev: nat, prevTerm: nat, entries: Log, commit: nat) returns (x: nat)
    requires LeaderLogsOk(ll) && Good(ll, n.log) && FromLeader(ll, n, prev, prevTerm, entries)
    ensures
      var (n', o) := AcceptEntries(n, prev, prevTerm, entries, commit);
      if o.Refused? then n' == n else Accepted(ll, n, n', o, x, prev + |entries|, commit)
  {
    x := 0;
    if prev <= |n.log| && (prev == 0 || TermAt(n.log, prev) == prevTerm) {
      FitsLeader(ll, n, prev, prevTerm, entries);
      x := TakeEffect(ll, n, prev, entries);
      AcknowledgeEffect(ll, n, TakeEntries(n, prev, entries), x, prev + |entries|, commit, entries == []);
    }
  }

  /** A request that passes the consistency check meets a log that agrees with the leader's. */
  lemma FitsLeader(ll: LeaderLogs, n: Node, prev: nat, prevTerm: nat, entries: Log)
    requires LeaderLogsOk(ll) && Good(ll, n.log) && FromLeader(ll, n, prev, prevTerm, entries)
    requires prev <= |n.log| && (prev == 0 || TermAt(n.log, prev) == prevTerm)
    ensures Has(n.log, ll[n.term], prev) && prev + |entries| <= |ll[n.term]| && entries == ll[n.term][prev..prev + |entries|]
  {
    if prev > 0 { LogMatching(ll, n.log, ll[n.term], prev); }
  }

  // ----- compaction and restart

  /** A rewrite of the log file while the syncer is at work covers at least what
      the syncer's flush covers. */
  lemma RewrittenSync(ll: LeaderLogs, n: Node, n': Node)
    requires NodeOk(ll, n) && n'.sync == Rewritten(n).sync && n'.term == n.term && n'.vers == [n'.log]
    requires forall j :: 0 < j <= |n.log| && n.log[j - 1].term == n.term ==> Has(n'.log, n.log, j)
    ensures SyncOk(ll, n')
  {
    if !n.sync.Idle? {
      var base := if n.sync.Captured? then n.sync.base else 0;
      var tail, rest := n.sync.tail, n.vers[base..];
      assert n.vers[0..] == n.vers && n'.vers[0..] == n'.vers;
      assert n.log in rest;
      forall j | 0 < j <= |tail| && tail[j - 1].term == n'.term ensures AllHave(n'.vers, tail, j) {
        assert AllHave(rest, tail, j);
        HasAt(n.log, tail, j, j - 1);
        HasVia(n'.log, n.log, tail, j);
      }
    }
  }

  lemma CaptureStep(ll: LeaderLogs, n: Node, k: nat)
    requires NodeOk(ll, n) && n.snap <= k <= |n.log|
    ensures NodeOk(ll, Capture(n, k))
  {
    var n' := Capture(n, k);
    assert n.log in n.vers;
    RewrittenSync(ll, n, n');
    forall w | w in n'.waiters ensures WaiterOk(ll, n', w) { assert WaiterOk(ll, n, w); }
  }

  lemma RestartStep(ll: LeaderLogs, n: Node, v: nat, k: nat)
    requires NodeOk(ll, n) && v < |n.vers| && k <= |n.applied|
    ensures NodeOk(ll, Restart(n, n.vers[v], k)) && Restart(n, n.vers[v], k).term == n.term
  {
    var log := n.vers[v];
    assert log in n.vers;
    assert TermsUpTo(log, n.term);
  }
}
