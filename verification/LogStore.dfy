/** The store behind a server's log: an append-only file, a write queue, and the
    rewrite that compaction uses, tied to the server whose log it keeps. */
module LogStore {
  import opened Basics
  import opened RaftLog
  import opened RaftNodeSpec
  import opened RecordCodec
  import opened LogFile

  // ----- the file and the server it belongs to

  /** The records on their way to the disk replay to the server's log behind its
      snapshot, and the logs a crash may leave are the ones the server model says. */
  ghost predicate Tied(n: Node, pre: Log, log: Log, gap: nat, disk: seq<Entry>, synced: nat) {
    && synced <= |disk| && Fold(disk, |disk|) == Loaded(log, gap) && AllFit(log)
    && n.log == pre + log && |pre| <= n.snap && n.vers == CrashLogs(pre, disk, synced)
    && (forall m {:trigger Deep(n.snap, pre, disk, m)} :: synced <= m <= |disk| ==> Deep(n.snap, pre, disk, m))
  }

  /** The log after `m` records continues the entries before it, past the snapshot. */
  ghost predicate Deep(snap: nat, pre: Log, disk: seq<Entry>, m: nat)
    requires m <= |disk|
  {
    Follows(Fold(disk, m).entries, |pre|) && snap <= |CrashLog(pre, disk, m)|
  }

  /** Appending, or overwriting everything after index `at`. */
  lemma TiedEnqueue(n: Node, pre: Log, log: Log, gap: nat, disk: seq<Entry>, synced: nat, at: nat, more: Log)
    requires Tied(n, pre, log, gap, disk, synced) && n.snap <= at <= |n.log| && more != [] && Follows(more, at) && AllFit(more)
    ensures Tied(Overwrite(n, at, more), pre, Overwritten(log, |pre|, at, more, |more|), gap, disk + more, synced)
  {
    assert Deep(n.snap, pre, disk, |disk|);
    FoldAppends(disk, more, log, gap, |pre|, at, |more|);
    QueueVersions(pre, disk, synced, more, log, gap, at);
    OverwrittenFits(pre, log, at, more);
    forall m | synced <= m <= |disk + more| ensures Deep(n.snap, pre, disk + more, m) {
      DeepEnqueue(n, pre, log, gap, disk, synced, at, more, m);
    }
  }

  lemma DeepEnqueue(n: Node, pre: Log, log: Log, gap: nat, disk: seq<Entry>, synced: nat, at: nat, more: Log, m: nat)
    requires Tied(n, pre, log, gap, disk, synced) && n.snap <= at <= |n.log| && Follows(more, at) && synced <= m <= |disk + more|
    ensures Deep(n.snap, pre, disk + more, m)
  {
    if m <= |disk| {
      FoldPrefix(disk, more, m);
      assert Deep(n.snap, pre, disk, m);
    } else {
      assert Deep(n.snap, pre, disk, |disk|);
      FoldAppends(disk, more, log, gap, |pre|, at, m - |disk|);
      OverwrittenFollows(log, |pre|, at, more, m - |disk|);
    }
  }

  /** A leader's own entry is the case where nothing is overwritten. */
  lemma OwnIsOverwrite(n: Node, kind: Kind, command: seq<Byte>)
    requires n.durable <= |n.log|
    ensures AppendOwn(n, kind, command) == Overwrite(n, |n.log|, [Entry(n.term, |n.log| + 1, kind, command)])
  {
    var e := Entry(n.term, |n.log| + 1, kind, command);
    assert n.log[..|n.log|] == n.log && [e][..1] == [e];
    assert Versions(n.log, [e]) == [n.log + [e]];
  }

  lemma OverwrittenFits(pre: Log, log: Log, at: nat, more: Log)
    requires |pre| <= at <= |pre| + |log| && AllFit(log) && AllFit(more)
    ensures AllFit(Overwritten(log, |pre|, at, more, |more|))
    ensures pre + Overwritten(log, |pre|, at, more, |more|) == (pre + log)[..at] + more
  {
    CutBehind(pre, log, at, more);
    assert more[..|more|] == more;
    var cut := log[..at - |pre|];
    forall e | e in cut ensures Fits(e) { assert e in log; }
    AllFitConcat(cut, more);
  }

  /** An fsync that covered the first `covered` records. */
  lemma TiedSync(n: Node, pre: Log, log: Log, gap: nat, disk: seq<Entry>, synced: nat, covered: nat)
    requires Tied(n, pre, log, gap, disk, synced) && synced <= covered <= |disk|
    requires n.sync.Captured? && n.sync.base <= covered - synced
    ensures covered - synced < |n.vers| && Tied(SyncFlush(n, covered - synced), pre, log, gap, disk, covered)
  {
    var d := covered - synced;
    var a, b := CrashLogs(pre, disk, synced)[d..], CrashLogs(pre, disk, covered);
    forall j | 0 <= j < |b| ensures a[j] == b[j] { assert b[j] == CrashLog(pre, disk, covered + j); }
    forall m | covered <= m <= |disk| ensures Deep(n.snap, pre, disk, m) { assert Deep(n.snap, pre, disk, m); }
  }

  lemma {:induction false} FoldWhole(log: Log, base: nat, k: nat)
    requires Follows(log, base) && k <= |log|
    ensures Fold(log, k) == Loaded(log[..k], 0)
  {
    if k > 0 {
      FoldWhole(log, base, k - 1);
      assert log[..k] == log[..k - 1] + [log[k - 1]];
      if k > 1 { FoldExtends(log, k - 1, log[..k - 1], 0, base); }
    }
  }

  /** A file all of whose records are durable. */
  lemma TiedSynced(n: Node, pre: Log, log: Log, gap: nat, disk: seq<Entry>)
    requires Fold(disk, |disk|) == Loaded(log, gap) && Follows(log, |pre|) && AllFit(log)
    requires n.log == pre + log && |pre| <= n.snap <= |n.log| && n.vers == [n.log]
    ensures Tied(n, pre, log, gap, disk, |disk|)
  {
    CrashLogsOne(pre, disk);
    assert Deep(n.snap, pre, disk, |disk|);
  }

  lemma CrashLogsOne(pre: Log, disk: seq<Entry>)
    ensures CrashLogs(pre, disk, |disk|) == [CrashLog(pre, disk, |disk|)]
  {
    var v := CrashLogs(pre, disk, |disk|);
    assert v[0] == CrashLog(pre, disk, |disk| + 0);
  }

  /** A file rewritten to exactly the server's log behind the snapshot. */
  lemma TiedRewrite(n: Node, pre: Log, log: Log)
    requires n.log == pre + log && n.snap == |pre| && n.vers == [n.log] && Follows(log, |pre|) && AllFit(log)
    ensures Tied(n, pre, log, 0, log, |log|)
  {
    FoldWhole(log, |pre|, |log|);
    assert log[..|log|] == log;
    TiedSynced(n, pre, log, 0, log);
  }

  lemma {:induction false} FoldFits(es: seq<Entry>, k: nat)
    requires AllFit(es) && k <= |es|
    ensures AllFit(Fold(es, k).entries)
  {
    if k > 0 {
      FoldFits(es, k - 1);
      PutFits(Fold(es, k - 1), es[k - 1]);
    }
  }

  lemma PutFits(l: Loaded, e: Entry)
    requires AllFit(l.entries) && Fits(e)
    ensures AllFit(Put(l, e).entries)
  {
    forall x | x in Put(l, e).entries ensures Fits(x) { assert x == e || x in l.entries; }
  }

  /** What is left after a crash that kept `m` records. */
  lemma TiedCrash(n: Node, pre: Log, log: Log, gap: nat, disk: seq<Entry>, synced: nat, m: nat, k: nat)
    requires Tied(n, pre, log, gap, disk, synced) && AllFit(disk) && synced <= m <= |disk| && k <= |n.applied|
    ensures m - synced < |n.vers| && Fold(disk[..m], m) == Fold(disk, m)
    ensures Tied(Restart(n, n.vers[m - synced], k), pre, Fold(disk, m).entries, Fold(disk, m).gap, disk[..m], m)
  {
    assert Deep(n.snap, pre, disk, m) && n.vers[m - synced] == CrashLog(pre, disk, m);
    assert disk == disk[..m] + disk[m..];
    FoldPrefix(disk[..m], disk[m..], m);
    FoldFits(disk, m);
    TiedSynced(Restart(n, n.vers[m - synced], k), pre, Fold(disk, m).entries, Fold(disk, m).gap, disk[..m]);
  }

  // ----- the bytes

  /** Of the records `disk` the first `w` are in the file and the rest in the queue;
      a failed write may leave bytes of the rest in the file. */
  ghost predicate BytesOk(rec: Recorder, file: Bytes, size: nat, pend: Bytes, failed: bool, disk: seq<Entry>, w: nat) {
    && AllFit(disk) && w <= |disk| && size == Offset(rec, disk, w) && size <= |file|
    && (if failed then file <= Image(rec, disk) else |file| == size && file + pend == Image(rec, disk))
  }

  lemma AllFitConcat(a: seq<Entry>, b: seq<Entry>)
    requires AllFit(a) && AllFit(b)
    ensures AllFit(a + b)
  {
    forall e | e in a + b ensures Fits(e) {}
  }

  lemma {:induction false} SizeSame(rec: Recorder, a: seq<Entry>, b: seq<Entry>, k: nat)
    requires k <= |a|
    ensures Size(rec, a + b, k) == Size(rec, a, k)
  {
    if k > 0 {
      SizeSame(rec, a, b, k - 1);
      assert (a + b)[k - 1] == a[k - 1];
    }
  }

  lemma BytesQueued(rec: Recorder, file: Bytes, size: nat, pend: Bytes, disk: seq<Entry>, w: nat, more: seq<Entry>)
    requires BytesOk(rec, file, size, pend, false, disk, w) && AllFit(more)
    ensures BytesOk(rec, file, size, pend + Encode(rec, more, |more|), false, disk + more, w)
  {
    AllFitConcat(disk, more);
    SizeSame(rec, disk, more, w);
    EncodeConcat(rec, disk, more);
    Regroup(file, pend, Encode(rec, more, |more|), Image(rec, disk), Image(rec, disk + more));
  }

  lemma Regroup(a: Bytes, b: Bytes, c: Bytes, ab: Bytes, abc: Bytes)
    requires a + b == ab && ab + c == abc
    ensures a + (b + c) == abc
  {}

  /** Records take room, so an empty queue means every record is in the file. */
  ghost predicate Positive(rec: Recorder) { forall e {:trigger rec(e)} :: |rec(e)| > 0 }

  lemma {:induction false} SizeGrows(rec: Recorder, es: seq<Entry>, k: nat, n: nat)
    requires Positive(rec) && k < n <= |es|
    ensures Size(rec, es, k) < Size(rec, es, n)
    decreases n
  {
    if k < n - 1 { SizeGrows(rec, es, k, n - 1); }
  }

  lemma QueueEmpty(rec: Recorder, file: Bytes, size: nat, disk: seq<Entry>, w: nat)
    requires Positive(rec) && BytesOk(rec, file, size, [], false, disk, w)
    ensures w == |disk|
  {
    assert file + [] == file;
    if w < |disk| { SizeGrows(rec, disk, w, |disk|); }
  }

  lemma BytesWritten(rec: Recorder, file: Bytes, size: nat, pend: Bytes, disk: seq<Entry>, w: nat, n: nat)
    requires BytesOk(rec, file, size, pend, false, disk, w) && n <= |pend|
    ensures BytesOk(rec, file + pend, size + |pend|, [], false, disk, |disk|)
    ensures BytesOk(rec, file + pend[..n], size, [], true, disk, w)
    ensures BytesOk(rec, file, size, [], true, disk, w)
  {
    assert file + pend + [] == file + pend;
    assert file + pend[..n] == (file + pend)[..size + n];
  }

  /** Whether an fsync is in progress, and whether the file was replaced under it. */
  datatype Flight = Landed | Ours | Stale

  /** What the last fsync covers, and what the one in progress will: it reaches the
      tail the syncer captured. */
  ghost predicate SyncOk(n: Node, synced: nat, w: nat, dirty: bool, failed: bool, flight: Flight) {
    && synced <= w && (!dirty && !failed && flight != Ours ==> synced == w)
    && (n.sync.Captured? ==>
          n.sync.base < |n.vers| && (flight == Ours ==> n.sync.base <= w - synced) && (flight == Stale ==> n.sync.base == 0))
  }

  datatype FlushResult = WriteFailed | NothingToSync | ToSync(gen: nat)

  /** What the bytes stand for: all records written or queued, in order; how many are
      in the file and how many an fsync covers; the server, its compacted entries, the
      log behind them and the gap replay would report. */
  datatype Kept = Kept(disk: seq<Entry>, w: nat, synced: nat, flight: Flight, node: Node, pre: Log, log: Log, gap: nat)

  ghost predicate KeptOk(rec: Recorder, file: Bytes, size: nat, pend: Bytes, failed: bool, dirty: bool, h: Kept) {
    && Positive(rec) && BytesOk(rec, file, size, pend, failed, h.disk, h.w)
    && Tied(h.node, h.pre, h.log, h.gap, h.disk, h.synced)
    && SyncOk(h.node, h.synced, h.w, dirty, failed, h.flight)
  }

  class Store {
    const rec: Recorder
    var file: Bytes
    var size: nat
    var pend: Bytes
    var failed: bool
    var dirty: bool
    var gen: nat
    ghost var h: Kept

    ghost predicate Valid()
      reads this
    {
      KeptOk(rec, file, size, pend, failed, dirty, h)
    }

    /** A store over a new, empty file. */
    constructor (rec: Recorder)
      requires Positive(rec)
      ensures Valid() && !failed && h.node == InitNode() && this.rec == rec && h.flight == Landed
    {
      this.rec := rec;
      file, size, pend, failed, dirty, gen := FILE_HEADER, |FILE_HEADER|, [], false, false, 0;
      h := Kept([], 0, 0, Landed, InitNode(), [], [], 0);
      TiedRewrite(InitNode(), [], []);
      BytesRewritten(rec, []);
    }

    /** Queue the records of `entries`, which the server puts after index `at`, unless
        a write failed before. */
    method Enqueue(entries: seq<Entry>, ghost at: nat) returns (ok: bool)
      requires Valid() && AllFit(entries) && entries != [] && Follows(entries, at) && h.node.snap <= at <= |h.node.log|
      modifies `pend, `h
      ensures Valid() && ok == !failed && h.flight == old(h).flight
      ensures h.node == if ok then Overwrite(old(h).node, at, entries) else old(h).node
    {
      if failed { return false; }
      BytesQueued(rec, file, size, pend, h.disk, h.w, entries);
      TiedEnqueue(h.node, h.pre, h.log, h.gap, h.disk, h.synced, at, entries);
      pend := EncodeRecords(rec, pend, entries);
      h := h.(disk := h.disk + entries, node := Overwrite(h.node, at, entries), log := Overwritten(h.log, |h.pre|, at, entries, |entries|));
      return true;
    }

    /** The syncer notes the tail of the log. */
    method Capture()
      requires Valid() && h.flight == Landed
      modifies `h
      ensures Valid() && old(h).node.vers != [] && h == old(h).(node := SyncBegin(old(h).node))
    {
      assert |CrashLogs(h.pre, h.disk, h.synced)| > 0;
      h := h.(node := SyncBegin(h.node));
    }

    /** Take the queue and write it.  `n` bytes get written; the write succeeds when
        that is all of them, and a failed one is rolled back if `undone`.  Any failure
        is final. */
    method FlushWrite(n: nat, undone: bool) returns (r: FlushResult)
      requires Valid() && n <= |pend| && h.flight == Landed && h.node.sync.Captured?
      modifies `file, `size, `pend, `failed, `dirty, `h
      ensures Valid() && h.node == old(h).node && (r == WriteFailed <==> old(failed) || n < old(|pend|))
      ensures r == WriteFailed ==> failed && h == old(h)
      ensures r != WriteFailed ==> !failed && h.w == |h.disk|
      ensures r == (if r == WriteFailed then r else if h.flight == Ours then ToSync(gen) else NothingToSync)
      ensures r.NothingToSync? ==> h.flight == Landed && h.synced == |h.disk|
    {
      if failed { return WriteFailed; }
      if n < |pend| {
        BytesWritten(rec, file, size, pend, h.disk, h.w, n);
        if !undone { file := file + pend[..n]; }
        failed, pend := true, [];
        return WriteFailed;
      }
      WriteQueue();
      if !dirty { return NothingToSync; }
      assert |h.node.vers| == |h.disk| - h.synced + 1;
      dirty, h := false, h.(flight := Ours);
      return ToSync(gen);
    }

    method WriteQueue()
      requires Valid() && !failed && h.flight == Landed
      modifies `file, `size, `pend, `dirty, `h
      ensures Valid() && h == old(h).(w := |old(h).disk|)
    {
      if |pend| > 0 {
        BytesWritten(rec, file, size, pend, h.disk, h.w, 0);
        file, size := file + pend, size + |pend|;
        dirty, pend, h := true, [], h.(w := |h.disk|);
      } else {
        QueueEmpty(rec, file, size, h.disk, h.w);
      }
    }

    /** The fsync of the file of generation `g` is through.  If the file was replaced
        meanwhile, the replacement was synced and this outcome does not matter. */
    method FlushSync(g: nat, fsynced: bool) returns (ok: bool, ghost d: nat)
      requires Valid() && h.flight != Landed && (g == gen <==> h.flight == Ours) && h.node.sync.Captured?
      modifies `failed, `pend, `h
      ensures Valid() && ok == (fsynced || g != gen) && h.flight == Landed
      ensures !ok ==> failed && h.node == old(h).node
      ensures ok ==> old(h).node.sync.base <= d < |old(h).node.vers| && h.node == SyncFlush(old(h).node, d)
      ensures ok && g == gen ==> h.synced == h.w
    {
      d := 0;
      if g != gen {
        assert h.node.vers[0..] == h.node.vers;
        h := h.(node := SyncFlush(h.node, 0), flight := Landed);
        return true, 0;
      }
      if !fsynced {
        FailedOk(rec, file, size, pend, h.disk, h.w, failed);
        failed, pend, h := true, [], h.(flight := Landed);
        return false, 0;
      }
      d := h.w - h.synced;
      TiedSync(h.node, h.pre, h.log, h.gap, h.disk, h.synced, h.w);
      h := h.(node := SyncFlush(h.node, d), synced := h.w, flight := Landed);
      return true, d;
    }

    /** Nothing was left to sync: the captured tail is on disk already. */
    method FlushNothing()
      requires Valid() && h.node.sync.Captured? && h.flight == Landed && h.synced == |h.disk|
      modifies `h
      ensures Valid() && |old(h).node.vers| == 1 && old(h).node.sync.base == 0 && h == old(h).(node := SyncFlush(old(h).node, 0))
    {
      assert |h.node.vers| == 1 && h.node.vers[0..] == h.node.vers;
      h := h.(node := SyncFlush(h.node, 0));
    }

    /** Replace the file by exactly the server's log behind its snapshot: `next` is
        the server with its prefix compacted, or a snapshot installed. */
    method Rewrite(entries: seq<Entry>, ghost next: Node, ghost front: Log)
      requires Valid() && AllFit(entries) && Follows(entries, |front|)
      requires next.log == front + entries && next.snap == |front| && next.sync == h.node.sync
      modifies this
      ensures Valid() && !failed && h.node == Rewritten(next) && h.flight == if old(h).flight == Ours then Stale else old(h).flight
    {
      ghost var flight := if h.flight == Ours then Stale else h.flight;
      RewriteOk(rec, next, front, entries, flight);
      var bytes := EncodeRecords(rec, FILE_HEADER, entries);
      file, size, pend, failed, dirty, gen := bytes, |bytes|, [], false, false, gen + 1;
      h := Kept(entries, |entries|, |entries|, flight, Rewritten(next), front, entries, 0);
    }

    /** A crash leaves `left` of the file, a byte prefix that has at least what an
        fsync covered; the server starts again from what replay finds there, and that
        is one of the logs the server model lets a crash leave. */
    method Crash(left: Bytes, read: Reader, ghost k: nat) returns (l: Loaded, ghost m: nat)
      requires Valid() && Codec(rec, read) && CrashFile(rec, h.disk, h.synced, left) && k <= |h.node.applied|
      modifies `file, `size, `pend, `failed, `dirty, `h
      ensures old(h).synced <= m <= |old(h).disk| && m - old(h).synced < |old(h).node.vers|
      ensures l == Fold(old(h).disk, m) && old(h).pre + l.entries == old(h).node.vers[m - old(h).synced]
      ensures Valid() && h.node == Restart(old(h).node, old(h).pre + l.entries, k)
    {
      m := CrashKept(rec, read, file, size, pend, failed, dirty, h, left, k);
      var kept, good;
      l, kept, good := Reload(left, read);
      assert l == Fold(h.disk, m) && good == Offset(rec, h.disk, m);
      Reopen(kept, good, AfterCrash(h, m, k));
    }

    /** The store goes on with the file as it is. */
    method Reopen(kept: Bytes, good: nat, ghost next: Kept)
      requires KeptOk(rec, kept, good, [], false, false, next)
      modifies `file, `size, `pend, `failed, `dirty, `h
      ensures Valid() && h == next
    {
      file, size, pend, failed, dirty, h := kept, good, [], false, false, next;
    }

    /** Replay what is there and cut off a torn record. */
    method Reload(left: Bytes, read: Reader) returns (l: Loaded, kept: Bytes, good: nat)
      requires Codec(rec, read) && FILE_HEADER <= left
      requires ReplayFrom(rec, read, left, |FILE_HEADER|, Loaded([], 0)).good <= |left|
      ensures Replayed(l, good) == ReplayFrom(rec, read, left, |FILE_HEADER|, Loaded([], 0)) && good <= |left| && kept == left[..good]
    {
      var r := Replay(rec, read, left);
      l, good := r.value.loaded, r.value.good;
      kept := left[..good];
    }
  }

  /** The history after a crash that kept the first `m` records. */
  ghost function AfterCrash(h: Kept, m: nat, k: nat): Kept
    requires h.synced <= m <= |h.disk| && m - h.synced < |h.node.vers| && k <= |h.node.applied|
  {
    Kept(h.disk[..m], m, m, Landed, Restart(h.node, h.node.vers[m - h.synced], k), h.pre, Fold(h.disk, m).entries, Fold(h.disk, m).gap)
  }

  lemma CrashKept(rec: Recorder, read: Reader, file: Bytes, size: nat, pend: Bytes, failed: bool, dirty: bool, h: Kept, left: Bytes, k: nat)
    returns (m: nat)
    requires Codec(rec, read) && KeptOk(rec, file, size, pend, failed, dirty, h)
    requires CrashFile(rec, h.disk, h.synced, left) && k <= |h.node.applied|
    ensures h.synced <= m <= |h.disk| && m - h.synced < |h.node.vers| && FILE_HEADER <= left
    ensures h.pre + Fold(h.disk, m).entries == h.node.vers[m - h.synced]
    ensures var good := Offset(rec, h.disk, m);
      && good <= |left| && ReplayFrom(rec, read, left, |FILE_HEADER|, Loaded([], 0)) == Replayed(Fold(h.disk, m), good)
      && KeptOk(rec, left[..good], good, [], false, false, AfterCrash(h, m, k))
  {
    m := CrashReloads(rec, read, h.pre, h.disk, h.synced, left);
    AfterCrashOk(rec, file, size, pend, failed, dirty, h, left, m, k);
  }

  lemma AfterCrashOk(rec: Recorder, file: Bytes, size: nat, pend: Bytes, failed: bool, dirty: bool, h: Kept, left: Bytes, m: nat, k: nat)
    requires KeptOk(rec, file, size, pend, failed, dirty, h) && k <= |h.node.applied| && left <= Image(rec, h.disk)
    requires h.synced <= m <= |h.disk| && Offset(rec, h.disk, m) <= |left|
    ensures m - h.synced < |h.node.vers| && FILE_HEADER <= left && h.pre + Fold(h.disk, m).entries == h.node.vers[m - h.synced]
    ensures KeptOk(rec, left[..Offset(rec, h.disk, m)], Offset(rec, h.disk, m), [], false, false, AfterCrash(h, m, k))
  {
    TiedCrash(h.node, h.pre, h.log, h.gap, h.disk, h.synced, m, k);
    CrashBytes(rec, h.disk, m, left);
    CrashOutcome(h.pre, h.disk, h.synced, m);
  }

  /** All of this holds of the record format the server writes. */
  lemma RealFormat(crc: Checksum, rec: Recorder, read: Reader)
    requires (forall e :: rec(e) == Record(crc, e)) && (forall f, at: nat :: read(f, at) == ReadRecord(crc, f, at))
    ensures Codec(rec, read) && Positive(rec)
  {
    RecordFormat(crc, rec, read);
  }

  /** A server writes, crashes at any point and reopens its log: what replay finds is
      a log the server model lets that crash leave, and it goes on from there. */
  method Recover(crc: Checksum, store: Store, left: Bytes, ghost k: nat) returns (l: Loaded)
    requires store.Valid() && forall e :: store.rec(e) == Record(crc, e)
    requires CrashFile(store.rec, store.h.disk, store.h.synced, left) && k <= |store.h.node.applied|
    modifies store
    ensures store.Valid() && old(store.h.pre) + l.entries in old(store.h.node.vers)
    ensures store.h.node == Restart(old(store.h.node), old(store.h.pre) + l.entries, k)
  {
    var read: Reader := (f: Bytes, at: nat) => ReadRecord(crc, f, at);
    RealFormat(crc, store.rec, read);
    ghost var m;
    l, m := store.Crash(left, read, k);
  }

  lemma CrashBytes(rec: Recorder, disk: seq<Entry>, m: nat, left: Bytes)
    requires AllFit(disk) && m <= |disk| && left <= Image(rec, disk) && Offset(rec, disk, m) <= |left|
    ensures FILE_HEADER <= left
    ensures BytesOk(rec, left[..Offset(rec, disk, m)], Offset(rec, disk, m), [], false, disk[..m], m)
  {
    var a, b := disk[..m], disk[m..];
    assert disk == a + b;
    EncodeConcat(rec, a, b);
    SizeSame(rec, a, b, m);
    assert Image(rec, disk)[..Offset(rec, disk, m)] == Image(rec, a);
    assert left[..Offset(rec, disk, m)] == Image(rec, a);
    assert Image(rec, a) + [] == Image(rec, a);
    assert FILE_HEADER <= Image(rec, a);
    forall e | e in a ensures Fits(e) { assert e in disk; }
  }

  lemma RewriteOk(rec: Recorder, n: Node, front: Log, entries: seq<Entry>, flight: Flight)
    requires AllFit(entries) && Follows(entries, |front|) && n.log == front + entries && n.snap == |front|
    ensures BytesOk(rec, FILE_HEADER + Encode(rec, entries, |entries|), Offset(rec, entries, |entries|), [], false, entries, |entries|)
    ensures Tied(Rewritten(n), front, entries, 0, entries, |entries|)
    ensures SyncOk(Rewritten(n), |entries|, |entries|, false, false, flight)
  {
    TiedRewrite(Rewritten(n), front, entries);
    BytesRewritten(rec, entries);
  }

  lemma BytesRewritten(rec: Recorder, entries: seq<Entry>)
    requires AllFit(entries)
    ensures BytesOk(rec, FILE_HEADER + Encode(rec, entries, |entries|), Offset(rec, entries, |entries|), [], false, entries, |entries|)
  {
    var b := FILE_HEADER + Encode(rec, entries, |entries|);
    assert b + [] == b;
  }

  lemma FailedOk(rec: Recorder, file: Bytes, size: nat, pend: Bytes, disk: seq<Entry>, w: nat, failed: bool)
    requires BytesOk(rec, file, size, pend, failed, disk, w)
    ensures BytesOk(rec, file, size, [], true, disk, w)
  {}

  lemma {:induction false} EncodeSame(rec: Recorder, a: seq<Entry>, b: seq<Entry>, k: nat)
    requires k <= |a|
    ensures Encode(rec, a + b, k) == Encode(rec, a, k)
  {
    if k > 0 { EncodeSame(rec, a, b, k - 1); }
  }

  lemma {:induction false} EncodeMore(rec: Recorder, a: seq<Entry>, b: seq<Entry>, k: nat)
    requires k <= |b|
    ensures Encode(rec, a + b, |a| + k) == Encode(rec, a, |a|) + Encode(rec, b, k)
  {
    if k == 0 {
      EncodeSame(rec, a, b, |a|);
      assert Encode(rec, b, 0) == [];
    } else {
      EncodeMore(rec, a, b, k - 1);
      var x, y, r := Encode(rec, a, |a|), Encode(rec, b, k - 1), rec(b[k - 1]);
      assert (a + b)[|a| + k - 1] == b[k - 1] && x + y + r == x + (y + r);
    }
  }

  /** Records of a concatenation are the records one after the other. */
  lemma {:induction false} EncodeConcat(rec: Recorder, a: seq<Entry>, b: seq<Entry>)
    ensures Encode(rec, a + b, |a + b|) == Encode(rec, a, |a|) + Encode(rec, b, |b|)
    ensures Image(rec, a + b) == Image(rec, a) + Encode(rec, b, |b|)
  {
    EncodeMore(rec, a, b, |b|);
  }

  /** A crash keeps a byte prefix of what was written or queued, and at least what
      an fsync covered. */
  ghost predicate CrashFile(rec: Recorder, all: seq<Entry>, synced: nat, b: Bytes) {
    synced <= |all| && Offset(rec, all, synced) <= |b| && b <= Image(rec, all)
  }

  lemma {:induction false} CompleteFrom(rec: Recorder, all: seq<Entry>, synced: nat, c: nat)
    requires synced <= |all| && Offset(rec, all, synced) <= c
    ensures synced <= Complete(rec, all, c, 0)
  {
    var m := Complete(rec, all, c, 0);
    EncodeGrows(rec, all, 0, synced);
    CompleteSpec(rec, all, c, 0);
    if m < synced { EncodeGrows(rec, all, m + 1, synced); }
  }

  lemma {:induction false} CrashReplay(rec: Recorder, read: Reader, all: seq<Entry>, b: Bytes)
    requires Codec(rec, read) && AllFit(all) && |FILE_HEADER| <= |b| && b <= Image(rec, all)
    ensures var m := Complete(rec, all, |b|, 0);
      ReplayFrom(rec, read, b, |FILE_HEADER|, Loaded([], 0)) == Replayed(Fold(all, m), Offset(rec, all, m))
  {
    assert b == Image(rec, all)[..|b|];
    ReplayPrefix(rec, read, all, |b|, 0);
  }

  lemma {:induction false} CrashOutcome(pre: Log, all: seq<Entry>, synced: nat, m: nat)
    requires synced <= m <= |all|
    ensures CrashLogs(pre, all, synced)[m - synced] == pre + Fold(all, m).entries
  {
    assert CrashLogs(pre, all, synced)[m - synced] == CrashLog(pre, all, m);
  }

  /** After a crash the server reloads the log of one of the outcomes `CrashLogs`
      lists, and replay ends where that outcome's last record ends. */
  lemma {:induction false} CrashReloads(rec: Recorder, read: Reader, pre: Log, all: seq<Entry>, synced: nat, b: Bytes)
    returns (m: nat)
    requires Codec(rec, read) && AllFit(all) && CrashFile(rec, all, synced, b)
    ensures synced <= m <= |all|
    ensures ReplayFrom(rec, read, b, |FILE_HEADER|, Loaded([], 0)) == Replayed(Fold(all, m), Offset(rec, all, m))
    ensures pre + Fold(all, m).entries == CrashLogs(pre, all, synced)[m - synced] && Offset(rec, all, m) <= |b|
  {
    m := Complete(rec, all, |b|, 0);
    EncodeGrows(rec, all, 0, synced);
    CompleteSpec(rec, all, |b|, 0);
    CompleteFrom(rec, all, synced, |b|);
    CrashReplay(rec, read, all, b);
    CrashOutcome(pre, all, synced, m);
  }
}
