/** Raft log entries and the prefix relations every safety argument is built on.

    A log is a sequence of entries; the entry at Raft index `i` sits at position
    `i - 1`.  `LeaderLogs` maps a term to the log its leader has built so far: a
    leader only appends, so these logs only grow, and every entry that ever
    carried term `T` was created in the leader log of `T`. */
module RaftLog {
  import opened Basics

  datatype Kind = Normal | Config

  datatype Entry = Entry(term: nat, index: nat, kind: Kind, command: seq<Byte>)

  type Log = seq<Entry>

  type LeaderLogs = map<nat, Log>

  /** Term of the entry at Raft index `i`; 0 for index 0 and past the end. */
  function TermAt(log: Log, i: nat): nat {
    if i == 0 || i > |log| then 0 else log[i - 1].term
  }

  function LastTerm(log: Log): nat { TermAt(log, |log|) }

  /** Entries with consecutive indices right after `base`. */
  predicate Follows(log: Log, base: nat) {
    forall i :: 0 <= i < |log| ==> log[i].index == base + 1 + i
  }

  /** `a` and `b` both reach index `n` and agree on everything up to it. */
  ghost predicate Has(a: Log, b: Log, n: nat) {
    n <= |a| && n <= |b| && a[..n] == b[..n]
  }

  /** `entries` are those of `p` right after index `prev`. */
  ghost predicate Piece(entries: Log, p: Log, prev: nat) {
    && prev + |entries| <= |p|
    && forall j {:trigger entries[j]} :: 0 <= j < |entries| ==> entries[j] == p[prev + j]
  }

  /** The entry at index `i` carries the prefix its term's leader had before it. */
  ghost predicate Carries(ll: LeaderLogs, log: Log, i: nat) {
    0 < i <= |log| ==> log[i - 1].term in ll && Has(log, ll[log[i - 1].term], i)
  }

  ghost predicate Good(ll: LeaderLogs, log: Log) {
    forall i: nat :: Carries(ll, log, i)
  }

  ghost predicate TermsUpTo(log: Log, term: nat) {
    forall i :: 0 <= i < |log| ==> 1 <= log[i].term <= term
  }

  ghost predicate LeaderLogsOk(ll: LeaderLogs) {
    forall t :: t in ll ==> Good(ll, ll[t]) && TermsUpTo(ll[t], t)
  }

  /** Leader logs only grow, and what a leader of `t` adds is of term `t`. */
  ghost predicate Grown(ll: LeaderLogs, ll': LeaderLogs) {
    forall t :: t in ll ==>
      && t in ll' && ll[t] <= ll'[t]
      && forall i :: |ll[t]| <= i < |ll'[t]| ==> ll'[t][i].term == t
  }

  // ----- prefix algebra

  lemma HasShorter(a: Log, b: Log, n: nat, m: nat)
    requires Has(a, b, n) && m <= n
    ensures Has(a, b, m)
  {
    assert a[..m] == a[..n][..m];
    assert b[..m] == b[..n][..m];
  }

  lemma HasAt(a: Log, b: Log, n: nat, i: nat)
    requires Has(a, b, n) && i < n
    ensures a[i] == b[i]
  {
    assert a[i] == a[..n][i];
    assert b[i] == b[..n][i];
  }

  lemma HasVia(a: Log, b: Log, c: Log, n: nat)
    requires Has(a, b, n) && Has(c, b, n)
    ensures Has(a, c, n) && Has(c, a, n)
  {}

  /** A prefix of `b` that is long enough has what `b` has. */
  lemma HasExtend(a: Log, b: Log, p: Log, n: nat)
    requires Has(a, p, n) && a <= b
    ensures Has(b, p, n)
  {
    assert b[..n] == a[..n];
  }

  lemma HasGrownRight(a: Log, p: Log, p': Log, n: nat)
    requires n <= |p| && p <= p'
    ensures Has(a, p, n) <==> Has(a, p', n)
  {
    assert p'[..n] == p[..n];
  }

  /** Two logs that differ at an index cannot agree beyond it. */
  lemma DiffersNotHas(a: Log, b: Log, n: nat, i: nat)
    requires i < n && i < |a| && i < |b| && a[i] != b[i]
    ensures !Has(a, b, n)
  {
    if Has(a, b, n) { HasAt(a, b, n, i); }
  }

  // ----- Log Matching

  /** Log Matching: same index and same term means the same prefix. */
  lemma LogMatching(ll: LeaderLogs, a: Log, b: Log, i: nat)
    requires Good(ll, a) && Good(ll, b)
    requires 0 < i <= |a| && i <= |b| && a[i - 1].term == b[i - 1].term
    ensures Has(a, b, i)
  {
    assert Carries(ll, a, i) && Carries(ll, b, i);
  }

  lemma GoodPrefix(ll: LeaderLogs, log: Log, n: nat)
    requires Good(ll, log) && n <= |log|
    ensures Good(ll, log[..n])
  {
    forall i: nat ensures Carries(ll, log[..n], i) {
      assert Carries(ll, log, i);
      if i <= n { assert log[..n][..i] == log[..i]; }
    }
  }

  lemma GoodMonotone(ll: LeaderLogs, log: Log, i: nat, j: nat)
    requires LeaderLogsOk(ll) && Good(ll, log) && i <= j < |log|
    ensures log[i].term <= log[j].term
  {
    var t := log[j].term;
    assert Carries(ll, log, j + 1);
    HasAt(log, ll[t], j + 1, i);
    assert TermsUpTo(ll[t], t);
  }

  lemma GoodGrown(ll: LeaderLogs, ll': LeaderLogs, log: Log)
    requires Grown(ll, ll') && Good(ll, log)
    ensures Good(ll', log)
  {
    forall i: nat ensures Carries(ll', log, i) {
      assert Carries(ll, log, i);
      if 0 < i <= |log| {
        var t := log[i - 1].term;
        HasGrownRight(log, ll[t], ll'[t], i);
      }
    }
  }

  /** Appending the leader's own next entry to its log keeps the log good. */
  lemma GoodAppend(ll: LeaderLogs, ll': LeaderLogs, log: Log, e: Entry)
    requires Grown(ll, ll') && Good(ll, log)
    requires e.term in ll' && ll'[e.term] == log + [e]
    ensures Good(ll', log + [e])
  {
    var log' := log + [e];
    GoodGrown(ll, ll', log);
    forall i: nat ensures Carries(ll', log', i) {
      assert Carries(ll', log, i);
      if i <= |log| { assert log'[..i] == log[..i]; }
    }
  }

  lemma LeaderLogsAppend(ll: LeaderLogs, t: nat, log: Log, e: Entry)
    requires LeaderLogsOk(ll) && Good(ll, log) && TermsUpTo(log, t)
    requires e.term == t >= 1
    requires t in ll ==> ll[t] == log
    ensures Grown(ll, ll[t := log + [e]]) && LeaderLogsOk(ll[t := log + [e]])
  {
    var ll' := ll[t := log + [e]];
    forall u | u in ll'
      ensures Good(ll', ll'[u]) && TermsUpTo(ll'[u], u)
    {
      if u == t {
        GoodAppend(ll, ll', log, e);
      } else {
        assert Good(ll, ll[u]) && TermsUpTo(ll[u], u);
        GoodGrown(ll, ll', ll[u]);
      }
    }
  }

  /** A leader log that lacks an entry of an earlier term never gets it later:
      all it adds is of its own term. */
  lemma LacksStable(ll: LeaderLogs, ll': LeaderLogs, t: nat, u: nat, n: nat)
    requires Grown(ll, ll') && t in ll && u in ll && t < u
    requires 0 < n <= |ll[t]| && ll[t][n - 1].term == t
    requires !Has(ll[u], ll[t], n)
    ensures !Has(ll'[u], ll'[t], n)
  {
    HasGrownRight(ll'[u], ll[t], ll'[t], n);
    if n <= |ll[u]| {
      assert ll'[u][..n] == ll[u][..n];
    } else if n <= |ll'[u]| {
      DiffersNotHas(ll'[u], ll[t], n, n - 1);
    }
  }
}
