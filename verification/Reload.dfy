/** Loading term, vote and log at start, next to the newest snapshot. */
module Reload {
  import opened Basics
  import opened RaftLog
  import opened RaftNodeSpec
  import opened LogFile

  datatype Loading = Corrupt | Ready(term: nat, vote: Id, log: Log)

  /** Index and term of the last entry, or of the snapshot if nothing follows it. */
  function LastTermOf(log: Log, snapTerm: nat): nat { if log == [] then snapTerm else log[|log| - 1].term }

  /** How many of the entries the snapshot covers. */
  function Covered(entries: Log, snap: nat): nat {
    if entries == [] || entries[0].index > snap then 0 else Min(|entries|, snap + 1 - entries[0].index)
  }

  /** What is left follows the snapshot, unless there was a gap before it. */
  lemma RestFollows(entries: Log, snap: nat)
    requires Consecutive(entries) && (entries != [] ==> 1 <= entries[0].index <= snap + 1)
    ensures Follows(entries[Covered(entries, snap)..], snap)
  {
    var cut := Covered(entries, snap);
    var rest := entries[cut..];
    forall i | 0 <= i < |rest| ensures rest[i].index == snap + 1 + i {
      assert rest[i] == entries[cut + i];
    }
  }

  /** It is what the snapshot does not cover, all of it. */
  lemma RestIs(entries: Log, snap: nat)
    requires Consecutive(entries) && (entries != [] ==> entries[0].index >= 1)
    ensures forall e :: e in entries[Covered(entries, snap)..] <==> e in entries && e.index > snap
  {
    var cut := Covered(entries, snap);
    var rest := entries[cut..];
    forall e | e in entries && e.index > snap ensures e in rest {
      var i :| 0 <= i < |entries| && entries[i] == e;
      assert entries[i] == rest[i - cut];
    }
    forall e | e in rest ensures e in entries && e.index > snap {
      var i :| 0 <= i < |rest| && rest[i] == e;
      assert e == entries[cut + i];
    }
  }

  /** Discard what the snapshot covers; its file is authoritative for its range. */
  method DropCovered(entries: Log, snap: nat) returns (log: Log)
    requires entries != [] ==> entries[0].index >= 1
    ensures log == entries[Covered(entries, snap)..]
  {
    log := entries;
    if snap > 0 && |log| > 0 {
      var first := log[0].index;
      if snap >= first {
        var cut := snap - first + 1;
        if cut >= |log| { log := []; } else { log := log[cut..]; }
      }
    }
  }

  /** `entries` and `gap` are what replay found; the snapshot covers `snap`. */
  method LoadState(entries: Log, gap: nat, term: nat, vote: Id, snap: nat, snapTerm: nat) returns (r: Loading)
    requires Consecutive(entries) && (entries != [] ==> entries[0].index >= 1)
    ensures r.Corrupt? <==> gap > snap || (entries != [] && entries[0].index > snap + 1)
    ensures r.Ready? ==> r.log == entries[Covered(entries, snap)..] && Follows(r.log, snap)
    ensures r.Ready? ==> forall e :: e in r.log <==> e in entries && e.index > snap
    ensures r.Ready? ==> r.term == Max(term, LastTermOf(r.log, snapTerm)) && r.vote == if r.term > term then "" else vote
  {
    RestIs(entries, snap);
    if gap > snap { return Corrupt; }
    var log := DropCovered(entries, snap);
    if entries != [] && entries[0].index <= snap + 1 { RestFollows(entries, snap); }
    if |log| > 0 && log[0].index > snap + 1 { return Corrupt; }
    var lt := LastTermOf(log, snapTerm);
    if lt > term { return Ready(lt, "", log); }
    return Ready(term, vote, log);
  }

  /** The whole log after a reload: the snapshot stands for `data`, and of the log
      `disk` on disk only what lies past the snapshot's index is kept. */
  function Reloaded(disk: Log, data: Log): Log {
    if |disk| <= |data| then data else data + disk[|data|..]
  }

  /** That is what loading leaves of the log on disk, of which `pre` was compacted before. */
  lemma LoadedIs(pre: Log, entries: Log, data: Log)
    requires Follows(entries, |pre|) && |pre| <= |data|
    ensures data + entries[Covered(entries, |data|)..] == Reloaded(pre + entries, data)
  {
    var k := |data|;
    if |pre + entries| > k {
      assert (pre + entries)[k..] == entries[k - |pre|..];
    } else {
      assert entries[Covered(entries, k)..] == [];
    }
  }

  /** Loading does what the cluster model's reload does, exactly if the log file ends within
      the snapshot or agrees with it. */
  lemma ReloadedIs(disk: Log, data: Log)
    ensures Reloaded(disk, data) == InstalledLog(disk, data) <==> Agrees(disk, data)
  {
    if |disk| > |data| { assert |data + disk[|data|..]| == |disk|; }
  }

  /** The prefix is dropped by index alone, so a stale suffix can end up behind the
      snapshot.  The result is a log some leader built exactly when the disk ends
      within the snapshot or has the snapshot's term at its index. */
  lemma ReloadedGood(ll: LeaderLogs, disk: Log, data: Log)
    requires Good(ll, disk) && Good(ll, data) && data != []
    ensures Good(ll, Reloaded(disk, data)) <==> Agrees(disk, data)
  {
    var k := |data|;
    if k < |disk| {
      if TermAt(disk, k) == LastTerm(data) {
        LogMatching(ll, disk, data, k);
        assert data + disk[k..] == disk;
      } else {
        StaleSuffix(ll, disk, data);
      }
    }
  }

  lemma StaleSuffix(ll: LeaderLogs, disk: Log, data: Log)
    requires Good(ll, disk) && data != [] && |data| < |disk| && TermAt(disk, |data|) != LastTerm(data)
    ensures !Carries(ll, Reloaded(disk, data), |data| + 1)
  {
    var k, log := |data|, Reloaded(disk, data);
    assert Carries(ll, disk, k + 1);
    assert log[k] == disk[k];
    if Carries(ll, log, k + 1) {
      HasAt(disk, ll[disk[k].term], k + 1, k - 1);
      HasAt(log, ll[disk[k].term], k + 1, k - 1);
      assert false;
    }
  }

  /** Such a disk exists: a server with two entries of term 1 on disk, whose memory
      already held and applied the entry of term 2 that replaced the first of them,
      captures a snapshot at index 1 and crashes before the log file is rewritten. */
  lemma StaleSuffixExample()
    ensures var disk := [Entry(1, 1, Normal, []), Entry(1, 2, Normal, [])];
      var data := [Entry(2, 1, Normal, [])];
      var ll: LeaderLogs := map[1 := disk, 2 := data];
      && LeaderLogsOk(ll) && Good(ll, disk) && Good(ll, data)
      && Reloaded(disk, data) == [Entry(2, 1, Normal, []), Entry(1, 2, Normal, [])]
      && !Good(ll, Reloaded(disk, data))
  {
    var disk := [Entry(1, 1, Normal, []), Entry(1, 2, Normal, [])];
    var data := [Entry(2, 1, Normal, [])];
    var ll: LeaderLogs := map[1 := disk, 2 := data];
    assert Good(ll, disk) && Good(ll, data);
    ReloadedGood(ll, disk, data);
  }
}
