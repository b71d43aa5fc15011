/** Exactly-once apply: a durable state machine that records how far it has applied,
    the applier, snapshot installs, and crashes at any stage of either.

    The state machine is represented by the commands it executed, in order: every
    state machine is a fold over them, and "each committed command once, in order"
    is equality of that history with the committed commands. */
module Applied {
  import opened Basics
  import opened RaftLog
  import opened RaftNodeSpec

  type Command = seq<Byte>

  /** What an applied-index record says. */
  datatype Rec = Rec(index: nat, term: nat, restoring: bool)

  /** Entries that reach the state machine: leader no-ops and configuration changes
      do not. */
  predicate Batchable(e: Entry) { e.kind == Normal && e.command != [] }

  /** The commands of the first `k` entries. */
  function Commands(log: Log, k: nat): seq<Command>
    requires k <= |log|
  {
    if k == 0 then []
    else if Batchable(log[k - 1]) then Commands(log, k - 1) + [log[k - 1].command]
    else Commands(log, k - 1)
  }

  lemma {:induction false} CommandsPrefix(a: Log, b: Log, k: nat)
    requires k <= |a| && k <= |b| && a[..k] == b[..k]
    ensures Commands(a, k) == Commands(b, k)
  {
    if k > 0 {
      assert a[k - 1] == a[..k][k - 1] == b[..k][k - 1] == b[k - 1];
      assert a[..k - 1] == a[..k][..k - 1] && b[..k - 1] == b[..k][..k - 1];
      CommandsPrefix(a, b, k - 1);
    }
  }

  /** The commands of a run that follows the first `k` entries. */
  lemma {:induction false} CommandsRun(log: Log, k: nat, run: Log, j: nat)
    requires k + j <= |log| && j <= |run| && log[k..k + j] == run[..j]
    ensures Commands(log, k + j) == Commands(log, k) + Commands(run, j)
  {
    if j > 0 {
      assert log[k + j - 1] == log[k..k + j][j - 1] == run[..j][j - 1] == run[j - 1];
      assert log[k..k + j - 1] == log[k..k + j][..j - 1] && run[..j - 1] == run[..j][..j - 1];
      CommandsRun(log, k, run, j - 1);
    }
  }

  /** Of one entry: its command, if it is a write; leader no-ops and configuration changes
      have none. */
  lemma CommandsOfOne(e: Entry)
    ensures Commands([e], 1) == if e.kind == Normal && e.command != [] then [e.command] else []
  {
    assert Commands([e], 0) == [];
  }

  // ----- startup, as a decision

  /** The state machine's own durable state: its contents and what it recorded. */
  datatype Engine = Engine(state: seq<Command>, rec: Option<Rec>)

  /** The record can be used: no restore is in progress and its term is the one the
      log has at its index, if the log has any. */
  predicate Trusted(rec: Option<Rec>, log: Log, snap: nat) {
    && rec.Some? && !rec.value.restoring
    && var t := if rec.value.index < snap then 0 else TermAt(log, rec.value.index);
       t == 0 || t == rec.value.term
  }

  /** The state machine's contents and the applied index after a start with snapshot
      `data` (none if empty) and the reloaded log, `data` included. */
  function Started(en: Engine, data: Log, log: Log): (seq<Command>, nat) {
    if data != [] then
      if Trusted(en.rec, log, |data|) && en.rec.value.index >= |data| then (en.state, en.rec.value.index)
      else (Commands(data, |data|), |data|)
    else if Trusted(en.rec, log, 0) then (en.state, en.rec.value.index)
    else if log != [] then ([], 0)
    else (en.state, 0)
  }

  /** A record is used, and what was applied not executed again, exactly if no restore was
      under way, it does not fall behind the snapshot, and the log has its entry or none at
      its index.  Otherwise the snapshot is restored, or, without one, nothing is left. */
  lemma StartedMeans(en: Engine, data: Log, log: Log)
    ensures var usable :=
        && en.rec.Some? && !en.rec.value.restoring && |data| <= en.rec.value.index
        && (0 < en.rec.value.index <= |log| ==> log[en.rec.value.index - 1].term in {0, en.rec.value.term});
      Started(en, data, log) ==
        if usable then (en.state, en.rec.value.index)
        else if data != [] then (Commands(data, |data|), |data|)
        else (if log != [] then [] else en.state, 0)
  {}

  /** What a record promises: the state is the one after its index. */
  ghost predicate Truthful(en: Engine, committed: Log) {
    en.rec.Some? && !en.rec.value.restoring ==>
      en.rec.value.index <= |committed| && en.state == Commands(committed, en.rec.value.index)
  }

  /** A start leaves every committed command up to the applied index executed once,
      in order — except that a state machine without a usable record, next to an
      empty log and no snapshot, keeps whatever it holds: then it is right exactly
      when it holds nothing. */
  lemma StartExact(en: Engine, data: Log, log: Log, committed: Log)
    requires Truthful(en, committed) && data <= committed
    ensures var (state, k) := Started(en, data, log);
      k <= |committed| &&
      (state == Commands(committed, k) <==> data != [] || log != [] || Trusted(en.rec, log, 0) || en.state == [])
  {
    assert data[..|data|] == committed[..|data|];
    CommandsPrefix(data, committed, |data|);
  }

  /** What a server of the cluster starts with is what the cluster model lets it restart with,
      if the record has the term of the entry it stands for. */
  lemma StartedRestarts(n: RaftNodeSpec.Node, en: Engine, data: Log, log: Log)
    requires n.snap == |data| <= |n.applied| && (forall i :: 0 <= i < |log| ==> log[i].term > 0)
    requires en.rec.Some? && !en.rec.value.restoring ==>
      en.rec.value.index <= |n.applied| && en.rec.value.term == TermAt(n.applied, en.rec.value.index)
    ensures RestartAt(n, log, Started(en, data, log).1)
  {}

  /** Likewise with a snapshot in place that the log file does not know of yet. */
  lemma StartedReloads(n: RaftNodeSpec.Node, en: Engine, data: Log, file: Log)
    requires |data| > 0 && var log := InstalledLog(file, data); forall i :: 0 <= i < |log| ==> log[i].term > 0
    requires en.rec.Some? && !en.rec.value.restoring ==>
      en.rec.value.index <= |n.applied| && en.rec.value.term == TermAt(n.applied, en.rec.value.index)
    ensures ReloadAt(n, file, data, Started(en, data, InstalledLog(file, data)).1)
  {}

  /** The exception is real: a follower that executed the entry after a new leader's
      no-op before its own copy was on disk, and crashed before the first record was,
      executes it twice. */
  lemma AppliedTwiceExample(noop: Entry, e: Entry)
    requires noop.kind == Normal && noop.command == [] && Batchable(e)
    ensures var (state, k) := Started(Engine(Commands([noop, e], 2), None), [], []);
      && k == 0
      && state + Commands([noop, e], 2) == [e.command, e.command]
      && Commands([noop, e], 2) == [e.command]
  {
    assert Commands([noop, e], 0) == [];
    assert Commands([noop, e], 1) == [];
    assert Commands([noop, e], 2) == [e.command];
  }

  // ----- the state machine and the node

  class Node {
    var state: seq<Command>
    var log: Log
    var data: Log
    var commitIndex: nat
    var lastApplied: nat
    const batches: bool

    // What the cluster ever commits, and the records a crash may fall back to, each
    // with the contents it vouches for.
    ghost const committed: Log
    ghost var marks: seq<Engine>

    /** What is on disk always suffices to start from. */
    ghost predicate DiskOk()
      reads this
    {
      data <= committed && forall m :: m in marks ==> Truthful(m, committed)
    }

    /** The state machine may come back as `en`: with any of the records, and with the
        contents that record vouches for — with any contents if it vouches for none. */
    ghost predicate FallsBackTo(en: Engine)
      reads this
    {
      exists m :: m in marks && m.rec == en.rec &&
        (m.rec.Some? && !m.rec.value.restoring ==> m.state == en.state)
    }

    ghost predicate Valid()
      reads this
    {
      && DiskOk()
      && |data| <= lastApplied <= commitIndex <= |committed|
      && state == Commands(committed, lastApplied)
      && (forall i :: lastApplied <= i < commitIndex && i < |log| ==> log[i] == committed[i])
    }

    constructor (committed: Log, batches: bool)
      ensures Valid() && this.committed == committed && lastApplied == 0
    {
      this.committed, this.batches := committed, batches;
      state, log, data, commitIndex, lastApplied := [], [], [], 0, 0;
      marks := [Engine([], None)];
    }

    /** Consensus moved the log and the commit index. */
    method Advance(newLog: Log, commit: nat)
      requires Valid() && commitIndex <= commit <= |committed|
      requires forall i :: lastApplied <= i < commit && i < |newLog| ==> newLog[i] == committed[i]
      modifies `log, `commitIndex
      ensures Valid() && log == newLog && commitIndex == commit
    {
      log, commitIndex := newLog, commit;
    }

    // ----- applying

    /** Execute a run, grouping neighbouring writes into batches when the state
        machine takes batches. */
    method ApplyEntries(entries: Log)
      modifies `state
      ensures state == old(state) + Commands(entries, |entries|)
    {
      var i := 0;
      while i < |entries|
        invariant i <= |entries| && state == old(state) + Commands(entries, i)
      {
        if batches && Batchable(entries[i]) {
          var j := i + 1;
          while j < |entries| && Batchable(entries[j])
            invariant i < j <= |entries| && forall k :: i <= k < j ==> Batchable(entries[k])
          {
            j := j + 1;
          }
          ApplyBatch(entries, i, j);
          i := j;
        } else {
          if Batchable(entries[i]) { state := state + [entries[i].command]; }
          i := i + 1;
        }
      }
    }

    /** One batch executes its commands in order. */
    method ApplyBatch(entries: Log, i: nat, j: nat)
      requires i <= j <= |entries| && forall k :: i <= k < j ==> Batchable(entries[k])
      requires exists s :: state == s + Commands(entries, i)
      modifies `state
      ensures forall s :: old(state) == s + Commands(entries, i) ==> state == s + Commands(entries, j)
    {
      var k := i;
      while k < j
        invariant i <= k <= j
        invariant forall s :: old(state) == s + Commands(entries, i) ==> state == s + Commands(entries, k)
      {
        state := state + [entries[k].command];
        k := k + 1;
      }
    }

    /** The entries after `lastApplied` that are committed and at hand. */
    method Gather() returns (run: Log)
      requires Valid()
      ensures lastApplied + |run| == Max(lastApplied, Min(commitIndex, |log|))
      ensures run == committed[lastApplied..lastApplied + |run|] && (run != [] ==> run == log[lastApplied..lastApplied + |run|])
    {
      run := [];
      var idx := lastApplied + 1;
      while idx <= commitIndex && idx <= |log|
        invariant idx == lastApplied + 1 + |run| <= commitIndex + 1 && (run != [] ==> idx <= |log| + 1 && run == log[lastApplied..idx - 1])
        invariant run == committed[lastApplied..lastApplied + |run|]
      {
        run := run + [log[idx - 1]];
        idx := idx + 1;
      }
    }

    /** One run: execute it, then record its last entry; a lost record only means
        more to execute after a restart. */
    method ApplyOneRun(recorded: bool) returns (more: bool)
      requires Valid()
      modifies this
      ensures Valid() && data == old(data) && log == old(log) && commitIndex == old(commitIndex)
      ensures more == (old(lastApplied) < lastApplied)
      ensures lastApplied == Max(old(lastApplied), Min(commitIndex, |log|))
      ensures more && recorded ==> Engine(state, Some(Rec(lastApplied, log[lastApplied - 1].term, false))) in marks
      ensures !(more && recorded) ==> marks == old(marks)
    {
      var run := Gather();
      if run == [] { return false; }
      assert run[..|run|] == run;
      CommandsRun(committed, lastApplied, run, |run|);
      ApplyEntries(run);
      lastApplied := lastApplied + |run|;
      if recorded { SetAppliedIndex(lastApplied, run[|run| - 1].term, false); }
      return true;
    }

    // ----- the record

    method SetAppliedIndex(index: nat, term: nat, durable: bool)
      requires DiskOk() && index <= |committed| && state == Commands(committed, index)
      modifies `marks
      ensures DiskOk()
      ensures var m := Engine(state, Some(Rec(index, term, false))); marks == if durable then [m] else old(marks) + [m]
    {
      ghost var m := Engine(state, Some(Rec(index, term, false)));
      marks := if durable then [m] else marks + [m];
    }

    method BeginRestore()
      requires DiskOk()
      modifies `marks
      ensures DiskOk() && forall m :: m in marks ==> m.rec.Some? && m.rec.value.restoring
    {
      marks := [Engine([], Some(Rec(0, 0, true)))];
    }

    // ----- installing a snapshot

    /** The stages of an install; a crash may come after any of them (`stages` is how
        many are done), in the middle of the restore (`mess` is what it leaves), and the
        last record may be lost. */
    method Install(snapshot: Log, newLog: Log, stages: nat, mess: seq<Command>, recorded: bool)
      requires Valid() && lastApplied < |snapshot| && snapshot <= committed
      requires forall i :: |snapshot| <= i < commitIndex && i < |newLog| ==> newLog[i] == committed[i]
      modifies this
      ensures DiskOk()
      ensures stages >= 6 ==> Valid() && lastApplied == |snapshot| && data == snapshot
    {
      if stages == 0 { return; }
      data := snapshot;
      if stages == 1 { return; }
      log := newLog;
      if commitIndex < |snapshot| { commitIndex := |snapshot|; }
      if stages == 2 { return; }
      RestoreState(snapshot, LastTerm(snapshot), stages - 2, mess, recorded);
      if stages < 6 { return; }
      lastApplied := |snapshot|;
    }

    /** Compaction: the snapshot of the applied state becomes the head of the log. */
    method Capture(snapshot: Log)
      requires Valid() && |data| < |snapshot| <= lastApplied && snapshot <= committed
      modifies `data
      ensures Valid() && data == snapshot
    {
      data := snapshot;
    }

    // ----- crash and start

    /** The process dies in any state the disk can be in — after any stage of an install
        or of an earlier start — and starts again with the log `disk` and the state machine
        as `en`.  It may die again after any of the `stages` of a restore. */
    method Restart(en: Engine, disk: Log, stages: nat, mess: seq<Command>, recorded: bool)
      requires DiskOk() && FallsBackTo(en)
      requires data != [] || disk != [] || Trusted(en.rec, disk, 0) || en.state == []
      modifies this
      ensures DiskOk() && data == old(data)
      ensures stages >= 4 ==> Valid() && log == disk && commitIndex == lastApplied && (state, lastApplied) == Started(en, data, disk)
    {
      StartExact(en, data, disk, committed);
      state, log, marks := en.state, disk, [en];
      lastApplied := |data|;
      var trusted := Trusted(en.rec, disk, |data|);
      if |data| > 0 && !(trusted && en.rec.value.index >= |data|) {
        RestoreState(data, LastTerm(data), stages, mess, recorded);
      } else if trusted && en.rec.value.index > lastApplied {
        lastApplied := en.rec.value.index;
      } else if !trusted && |data| == 0 && |disk| > 0 {
        RestoreState([], 0, stages, mess, recorded);
      }
      commitIndex := lastApplied;
    }

    /** Make the contents those of `snapshot`, marked while under way.  `stages` is how many
        of its steps are done when the process dies, all of them from 4 on. */
    method RestoreState(snapshot: Log, term: nat, stages: nat, mess: seq<Command>, recorded: bool)
      requires DiskOk() && snapshot <= committed
      modifies `state, `marks
      ensures DiskOk()
      ensures 1 <= stages < 4 ==> forall m :: m in marks ==> m.rec.Some? && m.rec.value.restoring
      ensures stages >= 4 ==> state == Commands(snapshot, |snapshot|) == Commands(committed, |snapshot|)
      ensures stages >= 4 && recorded ==> marks == [Engine(state, Some(Rec(|snapshot|, term, false)))]
    {
      if stages == 0 { return; }
      BeginRestore();
      if stages == 1 { return; }
      state := mess;
      if stages == 2 { return; }
      state := Commands(snapshot, |snapshot|);
      assert snapshot[..|snapshot|] == committed[..|snapshot|];
      CommandsPrefix(snapshot, committed, |snapshot|);
      if stages == 3 { return; }
      if recorded { SetAppliedIndex(|snapshot|, term, true); }
    }
  }
}
