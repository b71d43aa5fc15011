/** The Raft log file: records one after the other, replay, and what any torn tail
    leaves. */
module LogFile {
  import opened Basics
  import opened RaftLog
  import opened RaftNodeSpec
  import opened RecordCodec

  const FILE_HEADER: Bytes := [86, 88, 82, 76, 1, 0, 0, 0]

  /** How an entry is written and how the record at an offset is read.  The layout
      of the file depends on nothing but `Codec`. */
  type Recorder = Entry -> Bytes
  type Reader = (Bytes, nat) -> Parse

  /** Reading moves forward, a complete record reads back, and one cut short does
      not read at all. */
  ghost predicate Codec(rec: Recorder, read: Reader) {
    && (forall f: Bytes, at: nat {:trigger read(f, at)} :: read(f, at).Got? ==> at < read(f, at).next <= |f|)
    && (forall f: Bytes, at: nat, e: Entry {:trigger read(f, at), rec(e)} ::
          Fits(e) && at + |rec(e)| <= |f| && f[at..at + |rec(e)|] == rec(e) ==> read(f, at) == Got(e, at + |rec(e)|))
    && (forall f: Bytes, at: nat, e: Entry {:trigger read(f, at), rec(e)} ::
          Fits(e) && at <= |f| < at + |rec(e)| && f[at..] == rec(e)[..|f| - at] ==> read(f, at) == End)
    && (forall f: Bytes {:trigger read(f, |f|)} :: read(f, |f|) == End)
  }

  /** The record format is such a codec. */
  lemma {:induction false} RecordFormat(crc: Checksum, rec: Recorder, read: Reader)
    requires (forall e :: rec(e) == Record(crc, e)) && (forall f, at :: read(f, at) == ReadRecord(crc, f, at))
    ensures Codec(rec, read)
  {
    forall f: Bytes, at: nat, e: Entry | Fits(e) && at + |rec(e)| <= |f| && f[at..at + |rec(e)|] == rec(e)
      ensures read(f, at) == Got(e, at + |rec(e)|)
    {
      ReadBack(crc, f, at, e);
    }
    forall f: Bytes, at: nat, e: Entry | Fits(e) && at <= |f| < at + |rec(e)| && f[at..] == rec(e)[..|f| - at]
      ensures read(f, at) == End
    {
      ReadTorn(crc, f, at, e);
    }
  }

  ghost predicate AllFit(es: seq<Entry>) {
    forall e :: e in es ==> Fits(e)
  }

  // ----- the file

  /** Bytes taken by the records of the first `k` entries. */
  function Size(rec: Recorder, es: seq<Entry>, k: nat): nat
    requires k <= |es|
  {
    if k == 0 then 0 else Size(rec, es, k - 1) + |rec(es[k - 1])|
  }

  /** The records of the first `k` entries. */
  function Encode(rec: Recorder, es: seq<Entry>, k: nat): (b: Bytes)
    requires k <= |es|
    ensures |b| == Size(rec, es, k)
  {
    if k == 0 then [] else Encode(rec, es, k - 1) + rec(es[k - 1])
  }

  function Image(rec: Recorder, es: seq<Entry>): (b: Bytes)
    ensures |b| == Offset(rec, es, |es|)
  {
    FILE_HEADER + Encode(rec, es, |es|)
  }

  /** Where the record of entry `k` starts. */
  function Offset(rec: Recorder, es: seq<Entry>, k: nat): nat
    requires k <= |es|
  {
    |FILE_HEADER| + Size(rec, es, k)
  }

  /** Append the records of `entries` to `dst`. */
  method EncodeRecords(rec: Recorder, dst: Bytes, entries: seq<Entry>) returns (r: Bytes)
    ensures r == dst + Encode(rec, entries, |entries|)
  {
    r := dst;
    for i := 0 to |entries|
      invariant r == dst + Encode(rec, entries, i)
    {
      r := r + rec(entries[i]);
    }
  }

  // ----- replay

  predicate Consecutive(es: Log) {
    forall i :: 0 <= i < |es| ==> es[i].index == es[0].index + i
  }

  /** Replayed entries, and the last index an index gap discarded (0: none). */
  datatype Loaded = Loaded(entries: Log, gap: nat)

  /** The first `n` entries; replayed entries are consecutive (`FoldConsecutive`), so
      there are that many. */
  function Cut(entries: Log, n: nat): Log { if n <= |entries| then entries[..n] else entries }

  /** What one record does to the replayed entries: it supersedes everything from its
      index on, and a gap discards what came before it. */
  function Put(l: Loaded, e: Entry): Loaded {
    if l.entries == [] then Loaded([e], l.gap)
    else
      var first, last := l.entries[0].index, l.entries[|l.entries| - 1].index;
      if e.index <= first then Loaded([e], l.gap)
      else if e.index <= last then Loaded(Cut(l.entries, e.index - first) + [e], l.gap)
      else if e.index > last + 1 then Loaded([e], last)
      else Loaded(l.entries + [e], l.gap)
  }

  /** The log after the first `k` records. */
  function Fold(es: seq<Entry>, k: nat): Loaded
    requires k <= |es|
  {
    if k == 0 then Loaded([], 0) else Put(Fold(es, k - 1), es[k - 1])
  }

  lemma {:induction false} PutConsecutive(l: Loaded, e: Entry)
    requires Consecutive(l.entries)
    ensures Consecutive(Put(l, e).entries)
    ensures l.entries != [] && l.entries[0].index < e.index <= l.entries[|l.entries| - 1].index ==>
      e.index - l.entries[0].index <= |l.entries|
  {}

  /** Whatever was written, replay yields entries of consecutive indices. */
  lemma {:induction false} FoldConsecutive(es: seq<Entry>, k: nat)
    requires k <= |es|
    ensures Consecutive(Fold(es, k).entries)
  {
    if k > 0 {
      FoldConsecutive(es, k - 1);
      PutConsecutive(Fold(es, k - 1), es[k - 1]);
    }
  }

  datatype Replayed = Replayed(loaded: Loaded, good: nat)

  function ReplayFrom(rec: Recorder, read: Reader, file: Bytes, at: nat, l: Loaded): Replayed
    requires Codec(rec, read)
    decreases |file| - at
  {
    var r := read(file, at);
    if r.End? then Replayed(l, at) else ReplayFrom(rec, read, file, r.next, Put(l, r.entry))
  }

  /** Read the file from the start; a file that is not a Raft log is an error. */
  method Replay(ghost rec: Recorder, read: Reader, file: Bytes) returns (r: Option<Replayed>)
    requires Codec(rec, read)
    ensures r.Some? <==> FILE_HEADER <= file
    ensures r.Some? ==> r.value == ReplayFrom(rec, read, file, |FILE_HEADER|, Loaded([], 0))
  {
    if |file| < |FILE_HEADER| || file[..4] != FILE_HEADER[..4] || FromLE(file[4..8]) != 1 {
      HeaderRefused(file);
      return None;
    }
    HeaderRead(file);
    var l, good := Loaded([], 0), |FILE_HEADER|;
    var p := read(file, good);
    while p.Got?
      invariant p == read(file, good)
      invariant ReplayFrom(rec, read, file, good, l) == ReplayFrom(rec, read, file, |FILE_HEADER|, Loaded([], 0))
      decreases |file| - good, if p.Got? then 1 else 0
    {
      l := Put(l, p.entry);
      good := p.next;
      p := read(file, good);
    }
    return Some(Replayed(l, good));
  }

  lemma {:induction false} VersionBytes(s: Bytes)
    requires |s| == 4
    ensures FromLE(s) == 1 <==> s == [1, 0, 0, 0]
  {
    assert FromLE(s) == s[0] as nat + 256 * FromLE(s[1..]);
    assert FromLE(s[1..]) == s[1] as nat + 256 * FromLE(s[1..][1..]);
    assert s[1..][1..] == s[2..];
    assert FromLE(s[2..]) == s[2] as nat + 256 * FromLE(s[2..][1..]);
    assert s[2..][1..] == s[3..];
    assert FromLE(s[3..]) == s[3] as nat + 256 * FromLE(s[3..][1..]);
  }

  lemma {:induction false} HeaderRead(file: Bytes)
    requires |file| >= 8 && file[..4] == FILE_HEADER[..4] && FromLE(file[4..8]) == 1
    ensures FILE_HEADER <= file
  {
    VersionBytes(file[4..8]);
    assert file[..8] == file[..4] + file[4..8];
    assert FILE_HEADER == FILE_HEADER[..4] + [1, 0, 0, 0];
  }

  lemma {:induction false} HeaderRefused(file: Bytes)
    requires |file| < 8 || file[..4] != FILE_HEADER[..4] || FromLE(file[4..8]) != 1
    ensures !(FILE_HEADER <= file)
  {
    if FILE_HEADER <= file {
      assert file[..4] == FILE_HEADER[..4];
      assert file[4..8] == [1, 0, 0, 0];
      VersionBytes(file[4..8]);
    }
  }

  // ----- what a byte prefix replays to

  lemma {:induction false} EncodeGrows(rec: Recorder, es: seq<Entry>, k: nat, n: nat)
    requires k <= n <= |es|
    ensures Encode(rec, es, k) <= Encode(rec, es, n) && Size(rec, es, k) <= Size(rec, es, n)
    decreases n
  {
    if k < n { EncodeGrows(rec, es, k, n - 1); }
  }

  lemma {:induction false} Inside(a: Bytes, r: Bytes, all: Bytes)
    requires a + r <= all
    ensures all[|a|..|a| + |r|] == r
  {
    assert all[..|a| + |r|] == a + r;
    assert all[|a|..|a| + |r|] == all[..|a| + |r|][|a|..];
  }

  /** In the file, entry `k`'s record sits at its offset. */
  lemma {:induction false} RecordAt(rec: Recorder, es: seq<Entry>, k: nat)
    requires k < |es|
    ensures var o, r := Offset(rec, es, k), rec(es[k]);
      && Offset(rec, es, k + 1) == o + |r| <= |Image(rec, es)|
      && Image(rec, es)[o..o + |r|] == r
  {
    EncodeGrows(rec, es, k + 1, |es|);
    var a, r, all := Encode(rec, es, k), rec(es[k]), Encode(rec, es, |es|);
    assert FILE_HEADER + a + r <= FILE_HEADER + all by { assert FILE_HEADER + a + r == FILE_HEADER + (a + r); }
    Inside(FILE_HEADER + a, r, FILE_HEADER + all);
  }

  /** How many records a prefix of `c` bytes holds completely, from record `k` on. */
  function Complete(rec: Recorder, es: seq<Entry>, c: nat, k: nat): (m: nat)
    requires k <= |es|
    ensures k <= m <= |es|
    decreases |es| - k
  {
    if k < |es| && Offset(rec, es, k + 1) <= c then Complete(rec, es, c, k + 1) else k
  }

  lemma {:induction false} CompleteSpec(rec: Recorder, es: seq<Entry>, c: nat, k: nat)
    requires k <= |es| && Offset(rec, es, k) <= c
    ensures var m := Complete(rec, es, c, k);
      Offset(rec, es, m) <= c && (m < |es| ==> c < Offset(rec, es, m + 1))
    decreases |es| - k
  {
    if k < |es| && Offset(rec, es, k + 1) <= c { CompleteSpec(rec, es, c, k + 1); }
  }

  lemma {:induction false} CompleteAll(rec: Recorder, es: seq<Entry>)
    ensures Complete(rec, es, Offset(rec, es, |es|), 0) == |es|
  {
    var m := Complete(rec, es, Offset(rec, es, |es|), 0);
    EncodeGrows(rec, es, 0, |es|);
    CompleteSpec(rec, es, Offset(rec, es, |es|), 0);
    if m < |es| { EncodeGrows(rec, es, m + 1, |es|); }
  }

  lemma CutBehindOf(b: Bytes, o: nat, end: nat, c: nat)
    requires o <= end <= c <= |b|
    ensures b[..c][o..end] == b[o..end]
  {}

  lemma CutInside(b: Bytes, o: nat, end: nat, c: nat)
    requires o <= c <= end <= |b|
    ensures b[..c][o..] == b[o..end][..c - o]
  {}

  /** A byte prefix holds record `k` completely, or replay stops there. */
  lemma {:induction false} ReadInPrefix(rec: Recorder, read: Reader, es: seq<Entry>, c: nat, k: nat)
    requires Codec(rec, read) && AllFit(es) && k <= |es| && Offset(rec, es, k) <= c <= |Image(rec, es)|
    ensures read(Image(rec, es)[..c], Offset(rec, es, k)) ==
      if k < |es| && Offset(rec, es, k + 1) <= c then Got(es[k], Offset(rec, es, k + 1)) else End
  {
    var image, o := Image(rec, es), Offset(rec, es, k);
    var file := image[..c];
    if k < |es| {
      var end := o + |rec(es[k])|;
      RecordAt(rec, es, k);
      if end <= c { CutBehindOf(image, o, end, c); } else { CutInside(image, o, end, c); }
    } else {
      assert |file| == o;
    }
  }

  /** Crash refinement: whatever byte prefix of the written records a crash leaves,
      replay yields the log after the records that are complete in it, and stops
      exactly at their end. */
  lemma {:induction false} ReplayPrefix(rec: Recorder, read: Reader, es: seq<Entry>, c: nat, k: nat)
    requires Codec(rec, read) && AllFit(es) && k <= |es| && Offset(rec, es, k) <= c <= |Image(rec, es)|
    ensures var m := Complete(rec, es, c, k);
      ReplayFrom(rec, read, Image(rec, es)[..c], Offset(rec, es, k), Fold(es, k)) ==
      Replayed(Fold(es, m), Offset(rec, es, m))
    decreases |es| - k
  {
    ReadInPrefix(rec, read, es, c, k);
    if k < |es| && Offset(rec, es, k + 1) <= c { ReplayPrefix(rec, read, es, c, k + 1); }
  }

  /** Nothing lost: the whole file replays to the log after all records. */
  lemma {:induction false} ReplayWhole(rec: Recorder, read: Reader, es: seq<Entry>)
    requires Codec(rec, read) && AllFit(es)
    ensures ReplayFrom(rec, read, Image(rec, es), |FILE_HEADER|, Loaded([], 0)) ==
      Replayed(Fold(es, |es|), |Image(rec, es)|)
  {
    var file := Image(rec, es);
    assert file[..|file|] == file;
    CompleteAll(rec, es);
    ReplayPrefix(rec, read, es, |file|, 0);
  }

  // ----- what the server's log is while its records are on their way

  /** A record of index `at + 1` behind a log that reaches at least `at` leaves the
      log cut at `at` and extended. */
  lemma {:induction false} PutAppends(log: Log, gap: nat, base: nat, at: nat, e: Entry)
    requires Follows(log, base) && base <= at <= base + |log| && e.index == at + 1
    ensures Put(Loaded(log, gap), e) == Loaded(log[..at - base] + [e], gap)
    ensures Follows(log[..at - base] + [e], base)
  {
    if at - base == |log| { assert log[..at - base] == log; }
  }

  /** Any other record starts anew: one that reaches back before the log, and one behind a
      gap, which is remembered. */
  lemma PutStarts(log: Log, gap: nat, base: nat, e: Entry)
    requires Follows(log, base) && (e.index <= base + 1 || e.index > base + |log| + 1)
    ensures Put(Loaded(log, gap), e) == Loaded([e], if log != [] && e.index > base + |log| + 1 then base + |log| else gap)
  {}

  lemma {:induction false} FoldPrefix(a: seq<Entry>, b: seq<Entry>, k: nat)
    requires k <= |a|
    ensures Fold(a + b, k) == Fold(a, k)
  {
    if k > 0 {
      var e := a[k - 1];
      assert (a + b)[k - 1] == e;
      FoldPrefix(a, b, k - 1);
    }
  }

  lemma {:induction false} FoldExtends(es: seq<Entry>, k: nat, log: Log, gap: nat, base: nat)
    requires k < |es| && Fold(es, k) == Loaded(log, gap) && Follows(log, base) && es[k].index == base + |log| + 1
    ensures Fold(es, k + 1) == Loaded(log + [es[k]], gap)
  {
    PutAppends(log, gap, base, base + |log|, es[k]);
    assert log[..|log|] == log;
  }

  /** The log cut at index `at` and extended by the first `j` new entries. */
  function Overwritten(log: Log, base: nat, at: nat, more: Log, j: nat): Log
    requires base <= at <= base + |log| && j <= |more|
  {
    log[..at - base] + more[..j]
  }

  lemma {:induction false} OverwrittenFollows(log: Log, base: nat, at: nat, more: Log, j: nat)
    requires base <= at <= base + |log| && j <= |more| && Follows(log, base) && Follows(more, at)
    ensures Follows(Overwritten(log, base, at, more, j), base)
    ensures j < |more| ==> Overwritten(log, base, at, more, j) + [more[j]] == Overwritten(log, base, at, more, j + 1)
  {}

  /** Overwriting: new records in index order, behind records that replay to `log`,
      replay after the `j`-th of them to the log the server holds then. */
  lemma {:induction false} FoldAppends(all: seq<Entry>, more: seq<Entry>, log: Log, gap: nat, base: nat, at: nat, j: nat)
    requires Fold(all, |all|) == Loaded(log, gap) && Follows(log, base) && Follows(more, at)
    requires base <= at <= base + |log| && 0 < j <= |more|
    ensures Fold(all + more, |all| + j) == Loaded(Overwritten(log, base, at, more, j), gap)
  {
    OverwrittenFollows(log, base, at, more, j - 1);
    if j == 1 {
      FoldFirst(all, more, log, gap, base, at);
    } else {
      FoldAppends(all, more, log, gap, base, at, j - 1);
      FoldExtends(all + more, |all| + j - 1, Overwritten(log, base, at, more, j - 1), gap, base);
    }
  }

  lemma {:induction false} FoldFirst(all: seq<Entry>, more: seq<Entry>, log: Log, gap: nat, base: nat, at: nat)
    requires Fold(all, |all|) == Loaded(log, gap) && Follows(log, base) && Follows(more, at)
    requires base <= at <= base + |log| && more != []
    ensures Fold(all + more, |all| + 1) == Loaded(Overwritten(log, base, at, more, 1), gap)
  {
    FoldPrefix(all, more, |all|);
    PutAppends(log, gap, base, at, more[0]);
    assert more[..1] == [more[0]];
  }

  /** The log a crash leaves when it keeps the first `k` records, behind the
      compacted entries `pre`. */
  ghost function CrashLog(pre: Log, all: seq<Entry>, k: nat): Log
    requires k <= |all|
  {
    pre + Fold(all, k).entries
  }

  /** The logs a crash may leave while the records after the first `synced` are on
      their way to the disk. */
  ghost function CrashLogs(pre: Log, all: seq<Entry>, synced: nat): seq<Log>
    requires synced <= |all|
  {
    seq(|all| - synced + 1, j requires 0 <= j <= |all| - synced => CrashLog(pre, all, synced + j))
  }

  lemma {:induction false} CutBehind(pre: Log, log: Log, at: nat, m: Log)
    requires |pre| <= at <= |pre| + |log|
    ensures pre + (log[..at - |pre|] + m) == (pre + log)[..at] + m
  {
    assert (pre + log)[..at] == pre + log[..at - |pre|];
  }

  lemma {:induction false} QueueVersion(pre: Log, all: seq<Entry>, more: seq<Entry>, log: Log, gap: nat, at: nat, j: nat)
    requires Fold(all, |all|) == Loaded(log, gap) && Follows(log, |pre|) && Follows(more, at)
    requires |pre| <= at <= |pre| + |log| && j < |more|
    ensures CrashLog(pre, all + more, |all| + j + 1) == (pre + log)[..at] + more[..j + 1]
  {
    FoldAppends(all, more, log, gap, |pre|, at, j + 1);
    CutBehind(pre, log, at, more[..j + 1]);
  }

  /** Queueing records does to the possible crash outcomes what the server model
      says: one more outcome per record, each the log overwritten so far. */
  lemma {:induction false} QueueVersions(pre: Log, all: seq<Entry>, synced: nat, more: seq<Entry>, log: Log, gap: nat, at: nat)
    requires synced <= |all| && Fold(all, |all|) == Loaded(log, gap) && Follows(log, |pre|) && Follows(more, at)
    requires |pre| <= at <= |pre| + |log|
    ensures CrashLogs(pre, all + more, synced) == CrashLogs(pre, all, synced) + Versions((pre + log)[..at], more)
  {
    var vs, us, ws := CrashLogs(pre, all + more, synced), CrashLogs(pre, all, synced), Versions((pre + log)[..at], more);
    forall j | 0 <= j < |us| ensures vs[j] == us[j] {
      FoldPrefix(all, more, synced + j);
      assert vs[j] == CrashLog(pre, all + more, synced + j) && us[j] == CrashLog(pre, all, synced + j);
    }
    forall j | 0 <= j < |ws| ensures vs[|us| + j] == ws[j] {
      QueueVersion(pre, all, more, log, gap, at, j);
      assert vs[|us| + j] == CrashLog(pre, all + more, |all| + j + 1);
    }
    Joined(vs, us, ws);
  }

  lemma {:induction false} Joined<T>(vs: seq<T>, us: seq<T>, ws: seq<T>)
    requires |vs| == |us| + |ws| && (forall j :: 0 <= j < |us| ==> vs[j] == us[j])
    requires forall j :: 0 <= j < |ws| ==> vs[|us| + j] == ws[j]
    ensures vs == us + ws
  {
    forall j | 0 <= j < |vs| ensures vs[j] == (us + ws)[j] {
      if j >= |us| { assert vs[|us| + (j - |us|)] == ws[j - |us|]; }
    }
  }
}
