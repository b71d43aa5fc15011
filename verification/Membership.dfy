/** Cluster membership: configurations in the log, changed one server at a time,
    and carried over compaction by the snapshot. */
module Membership {
  import opened Basics
  import opened RaftLog

  /** Voters and learners, in the order they were added. */
  datatype Configuration = Configuration(servers: seq<Id>, learners: seq<Id>)

  ghost function Voters(c: Configuration): set<Id> { set s | s in c.servers }

  predicate IsMember(c: Configuration, id: Id) { id in c.servers || id in c.learners }

  /** No server is listed twice. */
  ghost predicate Distinct(c: Configuration) {
    NoRepeats(c.servers) && NoRepeats(c.learners) && forall id :: id in c.servers ==> id !in c.learners
  }

  function QuorumSize(c: Configuration): nat { |c.servers| / 2 + 1 }

  lemma {:induction false} CountAtMost(ids: seq<Id>)
    ensures |set id | id in ids| <= |ids|
  {
    if ids != [] {
      var last, front := ids[|ids| - 1], ids[..|ids| - 1];
      CountAtMost(front);
      assert (set id | id in ids) == (set id | id in front) + {last};
    }
  }

  // ----- one server at a time

  /** At most one server gains or loses its vote, and somebody keeps one. */
  ghost predicate OneVoter(c: Configuration, c': Configuration) {
    && c'.servers != []
    && |Voters(c) - Voters(c')| + |Voters(c') - Voters(c)| <= 1
  }

  ghost predicate Majority(c: Configuration, q: set<Id>) { q <= Voters(c) && |q| >= QuorumSize(c) }

  lemma SplitSize(a: set<Id>, b: set<Id>)
    ensures |a| == |a * b| + |a - b|
  {
    assert a == (a * b) + (a - b);
  }

  /** Any majority before the change meets any majority after it. */
  lemma MajoritiesMeet(c: Configuration, c': Configuration, q: set<Id>, q': set<Id>) returns (v: Id)
    requires OneVoter(c, c') && Majority(c, q) && Majority(c', q')
    ensures v in q && v in q'
  {
    CountAtMost(c.servers);
    CountAtMost(c'.servers);
    var a, b := Voters(c), Voters(c');
    SplitSize(a, b);
    SplitSize(b, a);
    assert a * b == b * a && |a + b| == |a * b| + |a - b| + |b - a| by {
      assert a + b == a * b + (a - b) + (b - a);
    }
    if q !! q' {
      assert |q + q'| == |q| + |q'|;
      SubsetSize(q + q', a + b);
      assert false;
    }
    v :| v in q && v in q';
  }

  /** A subset of size `k`. */
  lemma {:induction false} Choose(all: set<Id>, k: nat) returns (q: set<Id>)
    requires k <= |all|
    ensures q <= all && |q| == k
    decreases k
  {
    q := {};
    if k > 0 {
      q := Choose(all, k - 1);
      assert all == q + (all - q);
      assert |all - q| > 0;
      var x :| x in all - q;
      q := q + {x};
    }
  }

  /** Majorities of two configurations always meet exactly if there are not enough voters
      for two disjoint ones. */
  lemma MeetIff(c: Configuration, c': Configuration)
    requires NoRepeats(c.servers) && NoRepeats(c'.servers) && c.servers != [] && c'.servers != []
    ensures (forall q, q' :: Majority(c, q) && Majority(c', q') ==> !(q !! q')) <==>
      |Voters(c) + Voters(c')| < QuorumSize(c) + QuorumSize(c')
  {
    var a, b := Voters(c), Voters(c');
    if |a + b| < QuorumSize(c) + QuorumSize(c') {
      forall q, q' | Majority(c, q) && Majority(c', q') ensures !(q !! q') {
        SubsetSize(q + q', a + b);
        SplitSize(q, q');
        assert q + q' == (q - q') + q';
        assert |q * q'| > 0;
        var v :| v in q * q';
      }
    } else {
      var q, q' := Apart(c, c');
    }
  }

  lemma Apart(c: Configuration, c': Configuration) returns (q: set<Id>, q': set<Id>)
    requires NoRepeats(c.servers) && NoRepeats(c'.servers) && c.servers != [] && c'.servers != []
    requires |Voters(c) + Voters(c')| >= QuorumSize(c) + QuorumSize(c')
    ensures Majority(c, q) && Majority(c', q') && q !! q'
  {
    var a, b := Voters(c), Voters(c');
    CountDistinct(c.servers);
    CountDistinct(c'.servers);
    assert |a| == |c.servers| && |b| == |c'.servers|;
    SplitSize(a, b);
    if QuorumSize(c) <= |a - b| {
      q := Choose(a - b, QuorumSize(c));
      q' := Choose(b, QuorumSize(c'));
    } else {
      var more := Choose(a * b, QuorumSize(c) - |a - b|);
      q := (a - b) + more;
      assert |q| == QuorumSize(c);
      assert (a + b) - q == b - more;
      SplitSize(a + b, q);
      assert (a + b) * q == q;
      q' := Choose(b - more, QuorumSize(c'));
    }
  }

  // ----- the configuration a log implies

  type Decoder = seq<Byte> -> Option<Configuration>

  /** A configuration and the index of the entry it came from. */
  datatype InForce = InForce(config: Configuration, index: nat)

  function ConfigOf(dec: Decoder, e: Entry): Option<Configuration> { if e.kind == Config then dec(e.command) else None }

  /** The configuration in force after the first `n` retained entries. */
  function Latest(dec: Decoder, base: InForce, log: Log, n: nat): InForce
    requires n <= |log|
  {
    if n == 0 then base
    else
      var c := ConfigOf(dec, log[n - 1]);
      if c.Some? then InForce(c.value, log[n - 1].index) else Latest(dec, base, log, n - 1)
  }

  /** That is the last of them, from position `i`, or the base if there is none. */
  lemma {:induction false} LatestMeans(dec: Decoder, base: InForce, log: Log, n: nat, i: nat)
    requires i <= n <= |log| && forall j :: i <= j < n ==> ConfigOf(dec, log[j]).None?
    ensures i == 0 ==> Latest(dec, base, log, n) == base
    ensures i > 0 && ConfigOf(dec, log[i - 1]).Some? ==>
      Latest(dec, base, log, n) == InForce(ConfigOf(dec, log[i - 1]).value, log[i - 1].index)
  {
    if i < n { LatestMeans(dec, base, log, n - 1, i); }
  }

  /** Taking the configuration in force at the cut as the new base changes nothing
      that is derived from the rest. */
  lemma {:induction false} LatestCompacted(dec: Decoder, base: InForce, log: Log, k: nat, n: nat)
    requires k <= n <= |log|
    ensures Latest(dec, Latest(dec, base, log, k), log[k..], n - k) == Latest(dec, base, log, n)
  {
    if n > k { LatestCompacted(dec, base, log, k, n - 1); }
  }

  lemma {:induction false} LatestPrefix(dec: Decoder, base: InForce, log: Log, log': Log, n: nat)
    requires n <= |log| && n <= |log'| && forall i :: 0 <= i < n ==> log[i] == log'[i]
    ensures Latest(dec, base, log, n) == Latest(dec, base, log', n)
  {
    if n > 0 { LatestPrefix(dec, base, log, log', n - 1); }
  }

  ghost predicate Succeeds(c: Configuration, c': Configuration) { c'.servers != [] && (c.servers != [] ==> OneVoter(c, c')) }

  /** The entry at position `n` changes the configuration before it by one voter, or is
      the first a joining server hears of. */
  ghost predicate Changes(dec: Decoder, base: InForce, log: Log, n: nat)
    requires n < |log|
  {
    var c := ConfigOf(dec, log[n]);
    c.Some? ==> Succeeds(Latest(dec, base, log, n).config, c.value)
  }

  /** Every configuration entry of the log does. */
  ghost predicate Chained(dec: Decoder, base: InForce, log: Log) {
    forall n {:trigger Changes(dec, base, log, n)} :: 0 <= n < |log| ==> Changes(dec, base, log, n)
  }

  lemma ChainedCompacted(dec: Decoder, base: InForce, log: Log, k: nat)
    requires Chained(dec, base, log) && k <= |log|
    ensures Chained(dec, Latest(dec, base, log, k), log[k..])
  {
    forall n | 0 <= n < |log| - k ensures Changes(dec, Latest(dec, base, log, k), log[k..], n) {
      assert Changes(dec, base, log, k + n);
      LatestCompacted(dec, base, log, k, k + n);
    }
  }

  lemma ChainedAppend(dec: Decoder, base: InForce, log: Log, e: Entry)
    requires Chained(dec, base, log)
    requires ConfigOf(dec, e).Some? ==> Succeeds(Latest(dec, base, log, |log|).config, ConfigOf(dec, e).value)
    ensures Chained(dec, base, log + [e])
  {
    forall n | 0 <= n < |log| + 1 ensures Changes(dec, base, log + [e], n) {
      LatestPrefix(dec, base, log, log + [e], n);
      if n < |log| { assert Changes(dec, base, log, n); }
    }
  }

  /** Along a chained log nobody is ever left without voters again. */
  lemma {:induction false} ChainedVoters(dec: Decoder, base: InForce, log: Log, m: nat, n: nat)
    requires Chained(dec, base, log) && m <= n <= |log| && Latest(dec, base, log, m).config.servers != []
    ensures Latest(dec, base, log, n).config.servers != []
  {
    if n > m {
      ChainedVoters(dec, base, log, m, n - 1);
      assert Changes(dec, base, log, n - 1);
    }
  }

  /** The filter behind every removal, over the first `n` ids. */
  function Kept(ids: seq<Id>, id: Id, n: nat): seq<Id>
    requires n <= |ids|
  {
    if n == 0 then [] else if ids[n - 1] == id then Kept(ids, id, n - 1) else Kept(ids, id, n - 1) + [ids[n - 1]]
  }

  function Without(ids: seq<Id>, id: Id): seq<Id> { Kept(ids, id, |ids|) }

  lemma {:induction false} KeptHas(ids: seq<Id>, id: Id, n: nat)
    requires n <= |ids|
    ensures forall x :: x in Kept(ids, id, n) <==> x in ids[..n] && x != id
  {
    if n > 0 {
      KeptHas(ids, id, n - 1);
      assert ids[..n] == ids[..n - 1] + [ids[n - 1]];
    }
  }

  lemma WithoutHas(ids: seq<Id>, id: Id)
    ensures forall x :: x in Without(ids, id) <==> x in ids && x != id
  {
    KeptHas(ids, id, |ids|);
    assert ids[..|ids|] == ids;
  }

  lemma {:induction false} KeptDistinct(ids: seq<Id>, id: Id, n: nat)
    requires n <= |ids| && NoRepeats(ids)
    ensures NoRepeats(Kept(ids, id, n))
  {
    if n > 0 {
      KeptDistinct(ids, id, n - 1);
      KeptHas(ids, id, n - 1);
      assert ids[n - 1] !in ids[..n - 1];
      var front := Kept(ids, id, n - 1);
      forall i | 0 <= i < |front| ensures front[i] != ids[n - 1] { assert front[i] in front; }
    }
  }

  method RemoveID(ids: seq<Id>, id: Id) returns (out: seq<Id>)
    ensures out == Without(ids, id)
  {
    out := [];
    for i := 0 to |ids|
      invariant out == Kept(ids, id, i)
    {
      if ids[i] != id { out := out + [ids[i]]; }
    }
  }

  // ----- what the three changes do to a configuration

  function AddLearner(c: Configuration, id: Id): Configuration { c.(learners := c.learners + [id]) }

  function Promote(c: Configuration, id: Id): Configuration {
    Configuration(c.servers + [id], Without(c.learners, id))
  }

  function Remove(c: Configuration, id: Id): Configuration {
    Configuration(Without(c.servers, id), Without(c.learners, id))
  }

  /** Who votes and who learns after each. */
  lemma ChangesMean(c: Configuration, id: Id)
    ensures forall x :: x in AddLearner(c, id).servers <==> x in c.servers
    ensures forall x :: x in AddLearner(c, id).learners <==> x in c.learners || x == id
    ensures forall x :: x in Promote(c, id).servers <==> x in c.servers || x == id
    ensures forall x :: x in Promote(c, id).learners <==> x in c.learners && x != id
    ensures forall x :: x in Remove(c, id).servers <==> x in c.servers && x != id
    ensures forall x :: x in Remove(c, id).learners <==> x in c.learners && x != id
  {
    WithoutHas(c.servers, id);
    WithoutHas(c.learners, id);
  }

  lemma AddLearnerStep(c: Configuration, id: Id)
    requires c.servers != []
    ensures OneVoter(c, AddLearner(c, id))
    ensures Distinct(c) ==> (Distinct(AddLearner(c, id)) <==> !IsMember(c, id))
  {
    var c' := AddLearner(c, id);
    assert Voters(c) - Voters(c') == {} && Voters(c') - Voters(c) == {};
    if id in c.learners {
      var i :| 0 <= i < |c.learners| && c.learners[i] == id;
      assert c'.learners[i] == c'.learners[|c.learners|];
    }
    if id in c.servers { assert id in c'.servers && id == c'.learners[|c.learners|]; }
  }

  lemma PromoteStep(c: Configuration, id: Id)
    ensures OneVoter(c, Promote(c, id)) && (Distinct(c) && id in c.learners ==> Distinct(Promote(c, id)))
  {
    var c' := Promote(c, id);
    WithoutHas(c.learners, id);
    if Distinct(c) { KeptDistinct(c.learners, id, |c.learners|); }
    assert Voters(c') == Voters(c) + {id};
    assert Voters(c) - Voters(c') == {} && Voters(c') - Voters(c) <= {id};
    SubsetSize(Voters(c') - Voters(c), {id});
  }

  lemma RemoveStep(c: Configuration, id: Id)
    ensures OneVoter(c, Remove(c, id)) <==> Remove(c, id).servers != []
    ensures Distinct(c) ==> Distinct(Remove(c, id))
  {
    var c' := Remove(c, id);
    WithoutHas(c.servers, id);
    WithoutHas(c.learners, id);
    if Distinct(c) {
      KeptDistinct(c.servers, id, |c.servers|);
      KeptDistinct(c.learners, id, |c.learners|);
    }
    assert Voters(c') == Voters(c) - {id};
    assert Voters(c') - Voters(c) == {} && Voters(c) - Voters(c') <= {id};
    SubsetSize(Voters(c) - Voters(c'), {id});
  }

  lemma RemoveVoters(c: Configuration, id: Id)
    ensures !IsMember(Remove(c, id), id) && (id !in c.servers && c.servers != [] ==> Remove(c, id).servers != [])
  {
    WithoutHas(c.servers, id);
    WithoutHas(c.learners, id);
    if id !in c.servers && c.servers != [] { assert c.servers[0] in Remove(c, id).servers; }
  }

  /** Neighbouring configurations of a chained log never have disjoint majorities. */
  lemma ChainedMeet(dec: Decoder, base: InForce, log: Log, n: nat, q: set<Id>, q': set<Id>) returns (v: Id)
    requires Chained(dec, base, log) && n < |log|
    requires Majority(Latest(dec, base, log, n).config, q) && Majority(Latest(dec, base, log, n + 1).config, q')
    ensures v in q && v in q'
  {
    var c, c' := Latest(dec, base, log, n).config, Latest(dec, base, log, n + 1).config;
    assert Changes(dec, base, log, n);
    assert |q| >= 1;
    var x :| x in q;
    assert x in Voters(c) && x in c.servers;
    if c == c' { assert Voters(c) - Voters(c') == {}; }
    v := MajoritiesMeet(c, c', q, q');
  }

  // ----- the server

  const MAX_CONFIG_BYTES: nat := 3956

  lemma {:induction false} LatestIndex(dec: Decoder, base: InForce, log: Log, snap: nat, n: nat)
    requires n <= |log| && Follows(log, snap) && base.index <= snap
    ensures Latest(dec, base, log, n).index <= snap + n
    ensures forall i :: 0 <= i < n && ConfigOf(dec, log[i]).Some? ==> log[i].index <= Latest(dec, base, log, n).index
  {
    if n > 0 { LatestIndex(dec, base, log, snap, n - 1); }
  }

  /** The configuration in force is the one the retained log and its base imply, and
      every change along the log moved at most one vote.  The base of a server that was
      started to join is empty. */
  ghost predicate LogOk(dec: Decoder, base: InForce, log: Log, snap: nat, current: InForce) {
    && Follows(log, snap) && base.index <= snap && current == Latest(dec, base, log, |log|)
    && Chained(dec, base, log)
  }

  /** Every configuration entry of the log is at or below `index`. */
  ghost predicate ConfigsUpTo(dec: Decoder, log: Log, index: nat) {
    forall i :: 0 <= i < |log| && ConfigOf(dec, log[i]).Some? ==> log[i].index <= index
  }

  lemma LogOkAppend(dec: Decoder, base: InForce, log: Log, snap: nat, current: InForce, next: Configuration, e: Entry)
    requires LogOk(dec, base, log, snap, current) && e.index == snap + |log| + 1
    requires ConfigOf(dec, e) == Some(next) && OneVoter(current.config, next)
    ensures LogOk(dec, base, log + [e], snap, InForce(next, e.index)) && ConfigsUpTo(dec, log, current.index)
  {
    ChainedAppend(dec, base, log, e);
    LatestIndex(dec, base, log, snap, |log|);
  }

  /** Rounds of those who are learners. */
  function Pruned(c: Configuration, rounds: map<Id, nat>): map<Id, nat> {
    map x | x in rounds && x in c.learners :: rounds[x]
  }

  /** Those of `servers` that are this server or were heard from. */
  ghost function Hears(self: Id, servers: seq<Id>, heard: set<Id>): set<Id> { set v | v in servers && (v == self || v in heard) }

  lemma HearsMore(self: Id, servers: seq<Id>, v: Id, heard: set<Id>)
    requires v !in servers
    ensures |Hears(self, servers + [v], heard)| == |Hears(self, servers, heard)| + if v == self || v in heard then 1 else 0
  {
    assert Hears(self, servers + [v], heard) == Hears(self, servers, heard) + if v == self || v in heard then {v} else {};
  }

  /** Learner `x` may get a vote: it holds what the leader had when its round began, it was
      quick about it, and more than half of the voters, with it, were heard from. */
  ghost predicate MayVote(self: Id, c: Configuration, matched: map<Id, nat>, x: Id, quick: set<Id>, heard: set<Id>, begun: map<Id, nat>) {
    && x != self && x in begun && begun[x] <= (if x in matched then matched[x] else 0) && x in quick
    && 2 * |Hears(self, c.servers + [x], heard)| > |c.servers| + 1
  }

  /** `ready` is the first learner from position `i` on that may vote, if any may. */
  ghost predicate FirstOf(self: Id, c: Configuration, matched: map<Id, nat>, i: nat, quick: set<Id>, heard: set<Id>, begun: map<Id, nat>,
                          ready: Option<Id>) {
    if ready.None? then forall j :: i <= j < |c.learners| ==> !MayVote(self, c, matched, c.learners[j], quick, heard, begun)
    else exists j ::
      && i <= j < |c.learners| && c.learners[j] == ready.value && MayVote(self, c, matched, c.learners[j], quick, heard, begun)
      && forall m :: i <= m < j ==> !MayVote(self, c, matched, c.learners[m], quick, heard, begun)
  }

  /** It is promoted, if the new configuration can be written. */
  ghost predicate Promotes(self: Id, c: Configuration, matched: map<Id, nat>, quick: set<Id>, heard: set<Id>, begun: map<Id, nat>,
                           writes: Configuration -> bool, promoted: Option<Id>) {
    exists ready :: FirstOf(self, c, matched, 0, quick, heard, begun, ready) &&
      promoted == if ready.Some? && writes(Promote(c, ready.value)) then ready else None
  }

  datatype Outcome = Appended | NotLeader | InProgress | Exists | NotFound | LastVoter | NoQuorum | TooLarge | StoreFailed | Waiting

  class Server {
    const id: Id
    const dec: Decoder
    const enc: Configuration -> seq<Byte>

    var term: nat
    var leading: bool
    var log: Log
    var snapIndex: nat
    var commitIndex: nat
    var base: InForce
    var current: InForce
    var peers: seq<Id>
    var voterPeers: seq<Id>
    var removed: bool
    var voter: bool
    var matchIndex: map<Id, nat>
    var rounds: map<Id, nat>

    ghost predicate Coded() { forall c :: dec(enc(c)) == Some(c) }

    /** Only a voter leads, so a server that knows of no voters does not. */
    ghost predicate Valid()
      reads `log, `snapIndex, `base, `current, `peers, `voterPeers, `removed, `voter, `leading
    {
      LogOk(dec, base, log, snapIndex, current) && Derived(current.config) && (leading ==> current.config.servers != [])
    }

    /** A server starts with the configuration it was given: none, if it is to join. */
    constructor (id: Id, dec: Decoder, enc: Configuration -> seq<Byte>, boot: Configuration)
      ensures Valid() && this.id == id && this.dec == dec && this.enc == enc && !leading
      ensures log == [] && base == current == InForce(boot, 0) && snapIndex == commitIndex == 0
      ensures matchIndex == map[] && rounds == map[]
    {
      this.id, this.dec, this.enc := id, dec, enc;
      term, leading, log, snapIndex, commitIndex := 0, false, [], 0, 0;
      base, matchIndex, rounds := InForce(boot, 0), map[], map[];
      new;
      SetConfig(boot, 0);
    }

    /** The server is elected: it must be a voter. */
    method Lead(term: nat)
      requires Valid() && id in current.config.servers
      modifies `term, `leading, `matchIndex, `rounds
      ensures Valid() && leading && this.term == term && matchIndex == map[] && rounds == map[]
    {
      this.term, leading, matchIndex, rounds := term, true, map[], map[];
    }

    method Commit(idx: nat)
      requires Valid() && commitIndex <= idx <= LastIndex()
      modifies `commitIndex
      ensures Valid() && commitIndex == idx
    {
      commitIndex := idx;
    }

    method Acked(peer: Id, idx: nat)
      requires Valid()
      modifies `matchIndex
      ensures Valid() && matchIndex == old(matchIndex)[peer := idx]
    {
      matchIndex := matchIndex[peer := idx];
    }

    /** What follows from the configuration: whom to replicate to, whom to ask. */
    ghost predicate Derived(c: Configuration)
      reads `peers, `voterPeers, `removed, `voter
    {
      && peers == Without(c.servers, id) + Without(c.learners, id) && voterPeers == Without(c.servers, id)
      && removed == !IsMember(c, id) && voter == (id in c.servers)
    }

    method SetConfig(c: Configuration, index: nat)
      modifies `current, `peers, `voterPeers, `removed, `voter
      ensures current == InForce(c, index) && Derived(c)
    {
      current := InForce(c, index);
      voterPeers := RemoveID(c.servers, id);
      var learners := RemoveID(c.learners, id);
      peers := voterPeers + learners;
      removed := !IsMember(c, id);
      voter := id in c.servers;
    }

    /** Look back through the log for the newest readable configuration. */
    method RefreshConfig()
      modifies `current, `peers, `voterPeers, `removed, `voter
      ensures current == Latest(dec, base, log, |log|) && Derived(current.config)
    {
      var i := |log|;
      while i > 0
        invariant 0 <= i <= |log| && Latest(dec, base, log, |log|) == Latest(dec, base, log, i)
      {
        i := i - 1;
        var c := ConfigOf(dec, log[i]);
        if c.Some? {
          SetConfig(c.value, log[i].index);
          return;
        }
      }
      SetConfig(base.config, base.index);
    }

    /** The configuration in force at index `idx`. */
    method ConfigAt(idx: nat) returns (r: InForce)
      requires Follows(log, snapIndex) && snapIndex <= idx
      ensures r == Latest(dec, base, log, Min(idx - snapIndex, |log|))
    {
      r := base;
      var i := 0;
      while i < |log| && log[i].index <= idx
        invariant 0 <= i <= |log| && i <= idx - snapIndex && r == Latest(dec, base, log, i)
      {
        var c := ConfigOf(dec, log[i]);
        if c.Some? { r := InForce(c.value, log[i].index); }
        i := i + 1;
      }
    }

    function NewEntry(c: Configuration): Entry
      reads `term, `snapIndex, `log
    {
      Entry(term, snapIndex + |log| + 1, Config, enc(c))
    }

    /** The log may go on with configuration `c`. */
    ghost predicate Proposable(c: Configuration)
      reads `term, `log, `snapIndex, `base, `current
    {
      && LogOk(dec, base, log + [NewEntry(c)], snapIndex, InForce(c, snapIndex + |log| + 1))
      && ConfigsUpTo(dec, log, current.index) && c.servers != []
    }

    lemma StepProposable(c: Configuration)
      requires Valid() && dec(enc(c)) == Some(c) && OneVoter(current.config, c)
      ensures Proposable(c)
    {
      LogOkAppend(dec, base, log, snapIndex, current, c, NewEntry(c));
    }

    /** What comes of writing a configuration entry. */
    function Written(next: Configuration, stored: bool): (r: Outcome)
      ensures r == Appended <==> stored && |enc(next)| <= 3956
      ensures r == TooLarge <==> |enc(next)| > 3956
    {
      if |enc(next)| > MAX_CONFIG_BYTES then TooLarge else if !stored then StoreFailed else Appended
    }

    /** Append one configuration entry, in force at once. */
    method Propose(next: Configuration, stored: bool) returns (r: Outcome)
      requires Valid() && leading && current.index <= commitIndex && Proposable(next)
      modifies `log, `current, `peers, `voterPeers, `removed, `voter
      ensures Valid()
      ensures r == Written(next, stored)
      ensures r != Appended ==> log == old(log) && current == old(current)
      ensures r == Appended ==> log == old(log) + [old(NewEntry(next))] && current == InForce(next, snapIndex + |log|)
      ensures r == Appended ==> ConfigsUpTo(dec, old(log), commitIndex)
    {
      var e := NewEntry(next);
      if |e.command| > MAX_CONFIG_BYTES { return TooLarge; }
      if !stored { return StoreFailed; }
      log := log + [e];
      SetConfig(next, e.index);
      r := Appended;
    }

    /** The preconditions every change shares. */
    function BeginChange(): (r: Outcome)
      reads `leading, `current, `commitIndex
      ensures r == Appended <==> leading && current.index <= commitIndex
      ensures r == NotLeader <==> !leading
    {
      if !leading then NotLeader else if current.index > commitIndex then InProgress else Appended
    }

    /** A majority of the voters of `c` answered lately; `heard` are those who did. */
    predicate Reachable(c: Configuration, heard: set<Id>) {
      Answered(c.servers, heard, |c.servers|) >= QuorumSize(c)
    }

    function Answered(servers: seq<Id>, heard: set<Id>, n: nat): (r: nat)
      requires n <= |servers|
      ensures r <= n
    {
      if n == 0 then 0 else Answered(servers, heard, n - 1) + if servers[n - 1] == id || servers[n - 1] in heard then 1 else 0
    }

    lemma {:induction false} AnsweredMeans(servers: seq<Id>, heard: set<Id>, n: nat)
      requires n <= |servers| && NoRepeats(servers)
      ensures Answered(servers, heard, n) == |Hears(id, servers[..n], heard)|
    {
      if n == 0 {
        assert Hears(id, servers[..0], heard) == {};
      } else {
        AnsweredMeans(servers, heard, n - 1);
        assert servers[..n] == servers[..n - 1] + [servers[n - 1]];
        HearsMore(id, servers[..n - 1], servers[n - 1], heard);
      }
    }

    /** A quorum is reachable exactly if more than half of the voters were heard from, this
        server counted if it is one. */
    lemma ReachableMeans(c: Configuration, heard: set<Id>)
      requires NoRepeats(c.servers)
      ensures Reachable(c, heard) <==> 2 * |Hears(id, c.servers, heard)| > |c.servers|
    {
      AnsweredMeans(c.servers, heard, |c.servers|);
      assert c.servers[..|c.servers|] == c.servers;
    }

    // --- adding

    /** What an add finds before it waits to hear from a quorum. */
    function AddCheck(newId: Id): (r: Outcome)
      reads `leading, `current, `commitIndex
      ensures r == Appended <==> leading && current.index <= commitIndex && !IsMember(current.config, newId)
      ensures r == Exists <==> leading && current.index <= commitIndex && newId in current.config.servers
      ensures r == NotLeader <==> !leading
    {
      if BeginChange() != Appended then BeginChange()
      else if newId in current.config.servers then Exists
      else if newId in current.config.learners then Waiting
      else Appended
    }

    /** What it does after the wait: leadership and pending changes are checked
        again, membership is not. */
    method AddFinish(newId: Id, heard: set<Id>, stored: bool) returns (r: Outcome)
      requires Valid() && Coded()
      modifies `log, `current, `peers, `voterPeers, `removed, `voter
      ensures Valid() && r == if !Reachable(old(current).config, heard) then NoQuorum
                              else if old(BeginChange()) != Appended then old(BeginChange())
                              else Written(AddLearner(old(current).config, newId), stored)
      ensures r != Appended ==> log == old(log) && current == old(current)
      ensures r == Appended ==> ConfigsUpTo(dec, old(log), commitIndex) && |log| == |old(log)| + 1
      ensures r == Appended ==> current == InForce(AddLearner(old(current).config, newId), LastIndex())
      ensures r == Appended && Distinct(old(current).config) ==> (Distinct(current.config) <==> !IsMember(old(current).config, newId))
    {
      if !Reachable(current.config, heard) { return NoQuorum; }
      if BeginChange() != Appended { return BeginChange(); }
      var next := AddLearner(current.config, newId);
      AddLearnerStep(current.config, newId);
      StepProposable(next);
      r := Propose(next, stored);
    }

    /** The whole call, if a quorum was heard from at once: ids stay distinct. */
    method AddMember(newId: Id, heard: set<Id>, stored: bool) returns (r: Outcome)
      requires Valid() && Coded()
      modifies `log, `current, `peers, `voterPeers, `removed, `voter
      ensures Valid() && (Distinct(old(current).config) ==> Distinct(current.config))
      ensures old(AddCheck(newId)) != Appended ==> r == old(AddCheck(newId)) && log == old(log) && current == old(current)
      ensures r == Appended ==> current == InForce(AddLearner(old(current).config, newId), LastIndex())
    {
      r := AddCheck(newId);
      if r != Appended { return; }
      r := AddFinish(newId, heard, stored);
    }

    // --- removing

    function RemoveCheck(oldId: Id): (r: Outcome)
      reads `leading, `current, `commitIndex
      ensures r == Appended <==>
        && leading && current.index <= commitIndex && IsMember(current.config, oldId)
        && (oldId in current.config.servers ==> |current.config.servers| > 1)
      ensures r == NotFound <==> leading && current.index <= commitIndex && !IsMember(current.config, oldId)
      ensures r == NotLeader <==> !leading
    {
      if BeginChange() != Appended then BeginChange()
      else if !IsMember(current.config, oldId) then NotFound
      else if oldId in current.config.servers && |current.config.servers| == 1 then LastVoter
      else Appended
    }

    /** After the check, and after the wait if a voter is to go: the wait ends only
        when a quorum of the voters that would be left has answered. */
    method RemoveFinish(oldId: Id, waited: bool, heard: set<Id>, stored: bool) returns (r: Outcome)
      requires Valid() && Coded() && (!waited ==> oldId !in current.config.servers)
      modifies `log, `current, `peers, `voterPeers, `removed, `voter
      ensures Valid() && r == if waited && !Reachable(Remove(old(current).config, oldId), heard) then NoQuorum
                              else if old(BeginChange()) != Appended then old(BeginChange())
                              else if !IsMember(old(current).config, oldId) then NotFound
                              else Written(Remove(old(current).config, oldId), stored)
      ensures r != Appended ==> log == old(log) && current == old(current)
      ensures r == Appended ==> ConfigsUpTo(dec, old(log), commitIndex) && |log| == |old(log)| + 1
      ensures r == Appended ==> current == InForce(Remove(old(current).config, oldId), LastIndex())
      ensures r == Appended ==> current.config.servers != [] && !IsMember(current.config, oldId)
      ensures r == Appended && Distinct(old(current).config) ==> Distinct(current.config)
    {
      var next := Remove(current.config, oldId);
      if waited && !Reachable(next, heard) { return NoQuorum; }
      if BeginChange() != Appended { return BeginChange(); }
      if !IsMember(current.config, oldId) { return NotFound; }
      RemoveVoters(current.config, oldId);
      RemoveStep(current.config, oldId);
      StepProposable(next);
      r := Propose(next, stored);
    }

    /** The whole call, if a quorum of those left was heard from at once. */
    method RemoveMember(oldId: Id, heard: set<Id>, stored: bool) returns (r: Outcome)
      requires Valid() && Coded()
      modifies `log, `current, `peers, `voterPeers, `removed, `voter
      ensures Valid() && (Distinct(old(current).config) ==> Distinct(current.config))
      ensures old(RemoveCheck(oldId)) != Appended ==> r == old(RemoveCheck(oldId)) && log == old(log) && current == old(current)
      ensures old(RemoveCheck(oldId)) == Appended ==>
        r == if oldId in old(current).config.servers && !Reachable(Remove(old(current).config, oldId), heard) then NoQuorum
             else Written(Remove(old(current).config, oldId), stored)
      ensures r == Appended ==> current == InForce(Remove(old(current).config, oldId), LastIndex())
    {
      r := RemoveCheck(oldId);
      if r != Appended { return; }
      r := RemoveFinish(oldId, oldId in current.config.servers, heard, stored);
    }

    // --- promoting

    function LastIndex(): nat
      reads `snapIndex, `log
    {
      snapIndex + |log|
    }

    function Matched(x: Id): nat
      reads `matchIndex
    {
      if x in matchIndex then matchIndex[x] else 0
    }

    /** Learner `x` holds everything the leader had when its round began. */
    predicate CaughtUp(x: Id, begun: map<Id, nat>)
      reads `matchIndex
    {
      x in begun && begun[x] <= Matched(x)
    }

    /** Nothing keeps learner `x` from becoming a voter. */
    predicate Fit(x: Id, quick: set<Id>, heard: set<Id>, begun: map<Id, nat>)
      reads `matchIndex, `current
    {
      x != id && CaughtUp(x, begun) && x in quick && Reachable(Promote(current.config, x), heard)
    }

    /** The rounds after a look at learner `x` that is not promoted: one begins if there
        is none, or if the last is over. */
    function Looked(x: Id, begun: map<Id, nat>): map<Id, nat>
      reads `matchIndex, `snapIndex, `log
    {
      if x != id && (x !in begun || CaughtUp(x, begun)) then begun[x := LastIndex()] else begun
    }

    /** The learners from position `i` on, looked at in turn up to the first that is fit. */
    function Scan(i: nat, quick: set<Id>, heard: set<Id>, begun: map<Id, nat>): (map<Id, nat>, Option<Id>)
      requires i <= |current.config.learners|
      reads `matchIndex, `current, `snapIndex, `log
      decreases |current.config.learners| - i
    {
      if i == |current.config.learners| then (begun, None)
      else
        var x := current.config.learners[i];
        if Fit(x, quick, heard, begun) then (begun, Some(x)) else Scan(i + 1, quick, heard, Looked(x, begun))
    }

    lemma FitMeans(x: Id, quick: set<Id>, heard: set<Id>, begun: map<Id, nat>)
      requires Distinct(current.config) && x in current.config.learners
      ensures Fit(x, quick, heard, begun) <==> MayVote(id, current.config, matchIndex, x, quick, heard, begun)
    {
      PromoteStep(current.config, x);
      ReachableMeans(Promote(current.config, x), heard);
    }

    /** A look at another learner does not matter. */
    lemma LookedOther(x: Id, y: Id, quick: set<Id>, heard: set<Id>, begun: map<Id, nat>)
      requires x != y
      ensures MayVote(id, current.config, matchIndex, y, quick, heard, Looked(x, begun)) ==
              MayVote(id, current.config, matchIndex, y, quick, heard, begun)
    {}

    lemma {:induction false} ScanFinds(i: nat, quick: set<Id>, heard: set<Id>, begun: map<Id, nat>)
      requires i <= |current.config.learners| && Distinct(current.config)
      ensures FirstOf(id, current.config, matchIndex, i, quick, heard, begun, Scan(i, quick, heard, begun).1)
      decreases |current.config.learners| - i
    {
      var learners := current.config.learners;
      if i < |learners| {
        var x := learners[i];
        FitMeans(x, quick, heard, begun);
        if !Fit(x, quick, heard, begun) {
          var next := Looked(x, begun);
          ScanFinds(i + 1, quick, heard, next);
          forall j | i + 1 <= j < |learners|
            ensures MayVote(id, current.config, matchIndex, learners[j], quick, heard, next) ==
                    MayVote(id, current.config, matchIndex, learners[j], quick, heard, begun)
          {
            LookedOther(x, learners[j], quick, heard, begun);
          }
        }
      }
    }

    lemma PromoteMeans(quick: set<Id>, heard: set<Id>)
      requires Distinct(current.config)
      ensures FirstOf(id, current.config, matchIndex, 0, quick, heard, rounds, Scan(0, quick, heard, Pruned(current.config, rounds)).1)
    {
      var learners, begun := current.config.learners, Pruned(current.config, rounds);
      ScanFinds(0, quick, heard, begun);
      forall j | 0 <= j < |learners|
        ensures MayVote(id, current.config, matchIndex, learners[j], quick, heard, begun) ==
                MayVote(id, current.config, matchIndex, learners[j], quick, heard, rounds)
      {}
    }

    /** Rounds: that of a learner looked at and not promoted begins now if it had none or its
        last is over; any other goes on. */
    lemma {:induction false} ScanRounds(i: nat, quick: set<Id>, heard: set<Id>, begun: map<Id, nat>, j: nat)
      requires i <= j < |current.config.learners| && NoRepeats(current.config.learners)
      requires forall m :: i <= m <= j ==> !Fit(current.config.learners[m], quick, heard, begun)
      ensures var x, now := current.config.learners[j], Scan(i, quick, heard, begun).0;
        if x == id then (x in now) == (x in begun)
        else x in now && now[x] == if x in begun && (if x in matchIndex then matchIndex[x] else 0) < begun[x] then begun[x] else LastIndex()
      decreases |current.config.learners| - i
    {
      var learners := current.config.learners;
      var next := Looked(learners[i], begun);
      if i == j {
        ScanKeeps(i + 1, quick, heard, next, learners[j]);
      } else {
        ScanRounds(i + 1, quick, heard, next, j);
      }
    }

    /** The round of who is not looked at any more stays. */
    lemma {:induction false} ScanKeeps(i: nat, quick: set<Id>, heard: set<Id>, begun: map<Id, nat>, x: Id)
      requires i <= |current.config.learners| && x !in current.config.learners[i..]
      ensures var now := Scan(i, quick, heard, begun).0; (x in now <==> x in begun) && (x in now ==> now[x] == begun[x])
      decreases |current.config.learners| - i
    {
      var learners := current.config.learners;
      if i < |learners| {
        assert learners[i] in learners[i..] && forall y :: y in learners[i + 1..] ==> y in learners[i..];
        if !Fit(learners[i], quick, heard, begun) { ScanKeeps(i + 1, quick, heard, Looked(learners[i], begun), x); }
      }
    }

    /** One tick of the leader: promote at most one learner whose catch-up round is
        over, and was `quick`; open or restart the rounds of others. */
    method MaybePromote(quick: set<Id>, heard: set<Id>, stored: bool) returns (promoted: Option<Id>)
      requires Valid() && Coded()
      modifies `log, `current, `peers, `voterPeers, `removed, `voter, `rounds
      ensures Valid() && (promoted.None? ==> log == old(log) && current == old(current))
      ensures promoted.Some? ==>
        && ConfigsUpTo(dec, old(log), commitIndex) && |log| == |old(log)| + 1
        && current == InForce(Promote(old(current).config, promoted.value), LastIndex())
      ensures old(BeginChange()) != Appended ==>
        promoted == None && rounds == if leading then Pruned(old(current).config, old(rounds)) else old(rounds)
      ensures old(BeginChange()) == Appended ==>
        var (begun, ready) := old(Scan(0, quick, heard, Pruned(current.config, rounds)));
        && promoted == (if ready.Some? && Written(Promote(old(current).config, ready.value), stored) == Appended then ready else None)
        && rounds == if promoted.Some? then begun - {promoted.value} else begun
      ensures old(BeginChange()) == Appended && Distinct(old(current).config) ==>
        Promotes(id, old(current).config, matchIndex, quick, heard, old(rounds), Writes(stored), promoted)
    {
      ghost var c, begun, first := current.config, rounds, Scan(0, quick, heard, Pruned(current.config, rounds)).1;
      if Distinct(c) { PromoteMeans(quick, heard); }
      promoted := PromoteOne(quick, heard, stored);
      if Distinct(c) && old(BeginChange()) == Appended { PromotesReady(c, quick, heard, begun, stored, first, promoted); }
    }

    method PromoteOne(quick: set<Id>, heard: set<Id>, stored: bool) returns (promoted: Option<Id>)
      requires Valid() && Coded()
      modifies `log, `current, `peers, `voterPeers, `removed, `voter, `rounds
      ensures Valid() && (promoted.None? ==> log == old(log) && current == old(current))
      ensures promoted.Some? ==>
        && ConfigsUpTo(dec, old(log), commitIndex) && |log| == |old(log)| + 1
        && current == InForce(Promote(old(current).config, promoted.value), LastIndex())
      ensures old(BeginChange()) != Appended ==>
        promoted == None && rounds == if leading then Pruned(old(current).config, old(rounds)) else old(rounds)
      ensures old(BeginChange()) == Appended ==>
        var (begun, ready) := old(Scan(0, quick, heard, Pruned(current.config, rounds)));
        && promoted == (if ready.Some? && Written(Promote(old(current).config, ready.value), stored) == Appended then ready else None)
        && rounds == if promoted.Some? then begun - {promoted.value} else begun
    {
      promoted := None;
      if !leading { return; }
      if |current.config.learners| == 0 {
        rounds := map[];
        return;
      }
      rounds := Pruned(current.config, rounds);
      if current.index > commitIndex { return; }
      promoted := PromoteReady(quick, heard, stored);
    }

    /** Promote the first learner that is ready. */
    method PromoteReady(quick: set<Id>, heard: set<Id>, stored: bool) returns (promoted: Option<Id>)
      requires Valid() && Coded() && BeginChange() == Appended
      modifies `log, `current, `peers, `voterPeers, `removed, `voter, `rounds
      ensures Valid() && (promoted.None? ==> log == old(log) && current == old(current))
      ensures promoted.Some? ==>
        && ConfigsUpTo(dec, old(log), commitIndex) && |log| == |old(log)| + 1
        && current == InForce(Promote(old(current).config, promoted.value), LastIndex())
      ensures var (begun, ready) := old(Scan(0, quick, heard, rounds));
        && promoted == (if ready.Some? && Written(Promote(old(current).config, ready.value), stored) == Appended then ready else None)
        && rounds == if promoted.Some? then begun - {promoted.value} else begun
    {
      promoted := None;
      var ready := Ready(quick, heard);
      if ready.Some? {
        var r := PromoteNow(ready.value, stored);
        if r == Appended { promoted := ready; }
      }
    }

    /** What `Written` says, as a test. */
    ghost function Writes(stored: bool): Configuration -> bool { c => stored && |enc(c)| <= 3956 }

    lemma PromotesReady(c: Configuration, quick: set<Id>, heard: set<Id>, begun: map<Id, nat>, stored: bool, ready: Option<Id>, promoted: Option<Id>)
      requires FirstOf(id, c, matchIndex, 0, quick, heard, begun, ready)
      requires promoted == if ready.Some? && Written(Promote(c, ready.value), stored) == Appended then ready else None
      ensures Promotes(id, c, matchIndex, quick, heard, begun, Writes(stored), promoted)
    {}

    method PromoteNow(x: Id, stored: bool) returns (r: Outcome)
      requires Valid() && Coded() && BeginChange() == Appended
      modifies `log, `current, `peers, `voterPeers, `removed, `voter, `rounds
      ensures Valid() && r == Written(Promote(old(current).config, x), stored)
      ensures r != Appended ==> log == old(log) && current == old(current) && rounds == old(rounds)
      ensures r == Appended ==> ConfigsUpTo(dec, old(log), commitIndex) && rounds == old(rounds) - {x}
      ensures r == Appended ==> |log| == |old(log)| + 1 && current == InForce(Promote(old(current).config, x), LastIndex())
    {
      var next := Promote(current.config, x);
      PromoteStep(current.config, x);
      StepProposable(next);
      r := Propose(next, stored);
      if r == Appended { rounds := rounds - {x}; }
    }

    /** The loop over the learners: the first that is ready, rounds updated up to it. */
    method Ready(quick: set<Id>, heard: set<Id>) returns (ready: Option<Id>)
      modifies `rounds
      ensures (rounds, ready) == Scan(0, quick, heard, old(rounds))
    {
      ready := None;
      var learners := current.config.learners;
      for i := 0 to |learners|
        invariant Scan(i, quick, heard, rounds) == Scan(0, quick, heard, old(rounds))
      {
        var x := learners[i];
        if x != id {
          if x !in rounds {
            rounds := rounds[x := LastIndex()];
          } else if Matched(x) >= rounds[x] {
            if x in quick && Reachable(Promote(current.config, x), heard) { return Some(x); }
            rounds := rounds[x := LastIndex()];
          }
        }
      }
    }

    // --- the log cut, extended or replaced

    /** Compact behind a snapshot at `idx`: its configuration becomes the base. */
    method Compact(idx: nat)
      requires Valid() && snapIndex < idx <= LastIndex()
      modifies `log, `snapIndex, `base
      ensures Valid() && snapIndex == idx && log == old(log)[idx - old(snapIndex)..]
      ensures base == Latest(dec, old(base), old(log), idx - old(snapIndex)) && current == old(current)
    {
      var k := idx - snapIndex;
      base := ConfigAt(idx);
      LatestIndex(dec, old(base), old(log), snapIndex, k);
      ChainedCompacted(dec, old(base), old(log), k);
      LatestCompacted(dec, old(base), old(log), k, |log|);
      log := log[k..];
      snapIndex := idx;
    }

    /** Overwrite everything after index `at` with the leader's entries. */
    method TakeEntries(at: nat, entries: Log)
      requires Valid() && snapIndex <= at <= LastIndex() && Follows(entries, at)
      requires Chained(dec, base, log[..at - snapIndex] + entries)
      modifies `log, `current, `peers, `voterPeers, `removed, `voter, `leading
      ensures Valid() && log == old(log)[..at - snapIndex] + entries && !leading
    {
      leading := false;
      log := log[..at - snapIndex] + entries;
      RefreshConfig();
    }

    /** Install a snapshot of the leader: its configuration becomes the base, and the
        suffix that agrees with it stays.  `whole` is the log that was snapshotted,
        with that suffix after it. */
    method Install(meta: InForce, idx: nat, kept: Log, ghost base0: InForce, ghost whole: Log, ghost k: nat)
      requires Valid() && k <= |whole| && whole[k..] == kept && Follows(kept, idx) && meta.index <= idx
      requires Chained(dec, base0, whole) && meta == Latest(dec, base0, whole, k)
      modifies `leading, `log, `snapIndex, `base, `current, `peers, `voterPeers, `removed, `voter
      ensures Valid() && log == kept && snapIndex == idx && base == meta
      ensures current == Latest(dec, base0, whole, |whole|) && !leading
    {
      leading := false;
      ChainedCompacted(dec, base0, whole, k);
      LatestCompacted(dec, base0, whole, k, |whole|);
      log, snapIndex, base := kept, idx, meta;
      RefreshConfig();
    }
  }

  // ----- what can go wrong

  /** Two servers. */
  datatype Two = Two(a: Id, b: Id) {
    function Alone(): Configuration { Configuration([a], []) }

    function Learning(): Configuration { Configuration([a], [b]) }

    function Pair(): Configuration { Configuration([a, b], []) }

    function Again(): Configuration { Configuration([a, b], [b]) }
  }

  lemma PairIs(w: Two)
    ensures AddLearner(w.Alone(), w.b) == w.Learning() && Promote(w.Learning(), w.b) == w.Pair() && AddLearner(w.Pair(), w.b) == w.Again()
    ensures w.a != w.b ==> !Distinct(w.Again()) && w.b !in w.Alone().servers
  {
    assert Kept([w.b], w.b, 0) == [] && Kept([w.b], w.b, 1) == [];
    assert w.b in w.Again().servers && w.b in w.Again().learners by { assert w.Again().servers[1] == w.Again().learners[0] == w.b; }
  }

  lemma PairReached(s: Server, w: Two)
    requires s.id == w.a
    ensures s.Reachable(w.Alone(), {}) && s.Reachable(w.Pair(), {w.b})
  {
    var ids := w.Pair().servers;
    assert s.Answered(ids, {w.b}, 1) == 1 && s.Answered(ids, {w.b}, 2) == 2;
    assert s.Answered(w.Alone().servers, {}, 1) == 1;
  }

  /** Two calls add `b`.  The first finds it missing and waits to hear from a quorum; the
      second adds it, and it is promoted; the first goes on and adds it again: it is both
      a voter and a learner. */
  method AddedTwice(w: Two, dec: Decoder, enc: Configuration -> seq<Byte>) returns (s: Server)
    requires w.a != w.b && forall c :: dec(enc(c)) == Some(c)
    requires |enc(w.Learning())| <= MAX_CONFIG_BYTES && |enc(w.Pair())| <= MAX_CONFIG_BYTES && |enc(w.Again())| <= MAX_CONFIG_BYTES
    ensures fresh(s) && s.Valid() && s.leading && s.current.config == w.Again() && !Distinct(w.Again())
  {
    PairIs(w);
    s := new Server(w.a, dec, enc, w.Alone());
    s.Lead(1);
    var check := s.AddCheck(w.b);
    assert check == Appended;
    AddAndPromote(s, w);
    AddAgain(s, w);
  }

  method AddAgain(s: Server, w: Two)
    requires w.a != w.b && s.Valid() && s.Coded() && s.leading && s.id == w.a && s.current == InForce(w.Pair(), 2) && s.commitIndex == 2
    requires |s.enc(w.Again())| <= MAX_CONFIG_BYTES
    modifies s
    ensures s.Valid() && s.leading && s.current.config == w.Again() && !Distinct(w.Again())
  {
    PairIs(w);
    PairReached(s, w);
    var r := s.AddFinish(w.b, {w.b}, true);
  }

  method AddAndPromote(s: Server, w: Two)
    requires w.a != w.b && s.Valid() && s.Coded() && s.leading && s.id == w.a && s.current == InForce(w.Alone(), 0) && s.rounds == map[]
    requires s.log == [] && s.snapIndex == s.commitIndex == 0
    requires |s.enc(w.Learning())| <= MAX_CONFIG_BYTES && |s.enc(w.Pair())| <= MAX_CONFIG_BYTES
    modifies s
    ensures s.Valid() && s.leading && s.current == InForce(w.Pair(), 2) && s.commitIndex == 2
  {
    AddFirst(s, w);
    OpenRound(s, w);
    s.Acked(w.b, 1);
    PromoteB(s, w);
    s.Commit(2);
  }

  method AddFirst(s: Server, w: Two)
    requires w.a != w.b && s.Valid() && s.Coded() && s.leading && s.id == w.a && s.current == InForce(w.Alone(), 0)
    requires s.log == [] && s.snapIndex == s.commitIndex == 0 && |s.enc(w.Learning())| <= MAX_CONFIG_BYTES
    modifies s
    ensures s.Valid() && s.leading && s.current == InForce(w.Learning(), 1) && s.rounds == old(s.rounds)
    ensures s.LastIndex() == s.commitIndex == 1
  {
    PairIs(w);
    PairReached(s, w);
    var r := s.AddFinish(w.b, {}, true);
    s.Commit(1);
  }

  method OpenRound(s: Server, w: Two)
    requires w.a != w.b && s.Valid() && s.Coded() && s.leading && s.id == w.a && s.current == InForce(w.Learning(), 1) && s.rounds == map[]
    requires s.LastIndex() == s.commitIndex == 1
    modifies s
    ensures s.Valid() && s.leading && s.current == old(s.current) && s.log == old(s.log) && s.snapIndex == old(s.snapIndex)
    ensures s.commitIndex == 1 && s.rounds == map[w.b := 1]
  {
    assert !s.Fit(w.b, {}, {}, map[]);
    var none := s.MaybePromote({}, {}, true);
  }

  method PromoteB(s: Server, w: Two)
    requires w.a != w.b && s.Valid() && s.Coded() && s.leading && s.id == w.a && s.current == InForce(w.Learning(), 1) && s.rounds == map[w.b := 1]
    requires s.LastIndex() == s.commitIndex == 1 && s.Matched(w.b) == 1 && |s.enc(w.Pair())| <= MAX_CONFIG_BYTES
    modifies s
    ensures s.Valid() && s.leading && s.current == InForce(w.Pair(), 2) && s.LastIndex() == 2 && s.commitIndex == 1
  {
    PairIs(w);
    PairReached(s, w);
    assert s.Fit(w.b, {w.b}, {w.b}, Pruned(w.Learning(), s.rounds));
    var some := s.MaybePromote({w.b}, {w.b}, true);
  }

  /** Five servers. */
  datatype Five = Five(a: Id, b: Id, c: Id, d: Id, e: Id) {
    ghost predicate Differ() { a != b && a != c && a != d && a != e && b != c && b != d && b != e && c != d && c != e && d != e }

    function Before(): Configuration { Configuration([a, b, c, d], [e]) }

    function Promoted(): Configuration { Configuration([a, b, c, d, e], []) }

    function Removed(): Configuration { Configuration([b, c, d], [e]) }
  }

  lemma PromotedIs(f: Five)
    ensures Promote(f.Before(), f.e) == f.Promoted()
  {
    assert Kept([f.e], f.e, 0) == [] && Kept([f.e], f.e, 1) == [];
  }

  lemma RemovedIs(f: Five)
    requires f.Differ()
    ensures Remove(f.Before(), f.a) == f.Removed()
  {
    var ids := f.Before().servers;
    assert Kept(ids, f.a, 0) == [] && Kept(ids, f.a, 1) == [] && Kept(ids, f.a, 2) == [f.b];
    assert Kept(ids, f.a, 3) == [f.b, f.c] && Kept(ids, f.a, 4) == [f.b, f.c, f.d];
    assert Kept([f.e], f.a, 0) == [] && Kept([f.e], f.a, 1) == [f.e];
  }

  /** The two configurations have majorities that do not meet. */
  lemma BranchesApart(f: Five)
    requires f.Differ()
    ensures Majority(f.Promoted(), {f.a, f.d, f.e}) && Majority(f.Removed(), {f.b, f.c}) && {f.a, f.d, f.e} !! {f.b, f.c}
  {
    var more, less := f.Promoted().servers, f.Removed().servers;
    assert more[0] == f.a && more[3] == f.d && more[4] == f.e && less[0] == f.b && less[1] == f.c;
  }

  lemma PromotedReached(s: Server, f: Five)
    requires s.id == f.a
    ensures s.Reachable(f.Promoted(), {f.b, f.c})
  {
    var ids, heard := f.Promoted().servers, {f.b, f.c};
    assert s.Answered(ids, heard, 1) == 1 && s.Answered(ids, heard, 2) == 2 && s.Answered(ids, heard, 3) == 3;
    assert s.Answered(ids, heard, 4) >= 3 && s.Answered(ids, heard, 5) >= 3;
  }

  lemma RemovedReached(s: Server, f: Five)
    requires s.id == f.b
    ensures s.Reachable(f.Removed(), {f.c})
  {
    var ids, heard := f.Removed().servers, {f.c};
    assert s.Answered(ids, heard, 1) == 1 && s.Answered(ids, heard, 2) == 2 && s.Answered(ids, heard, 3) >= 2;
  }

  /** Leader `a` of term 1 promotes `e`; `b`, elected in term 2 by servers that did not hear
      of that, removes `a`.  Both changes are allowed, since each leader sees only a
      configuration that is committed, and their majorities need not meet. */
  method TwoLeadersApart(f: Five, dec: Decoder, enc: Configuration -> seq<Byte>) returns (x: Server, y: Server)
    requires f.Differ() && forall c :: dec(enc(c)) == Some(c)
    requires |enc(f.Promoted())| <= MAX_CONFIG_BYTES && |enc(f.Removed())| <= MAX_CONFIG_BYTES
    ensures fresh(x) && fresh(y) && x.Valid() && y.Valid() && x.leading && y.leading && x.term < y.term && x.base == y.base
    ensures exists q, q' :: Majority(x.current.config, q) && Majority(y.current.config, q') && q !! q'
  {
    x := PromoteLast(f, dec, enc);
    y := RemoveFirst(f, dec, enc);
    BranchesApart(f);
  }

  method PromoteLast(f: Five, dec: Decoder, enc: Configuration -> seq<Byte>) returns (x: Server)
    requires f.Differ() && (forall c :: dec(enc(c)) == Some(c)) && |enc(f.Promoted())| <= MAX_CONFIG_BYTES
    ensures fresh(x) && x.Valid() && x.leading && x.term == 1 && x.base == InForce(f.Before(), 0) && x.current.config == f.Promoted()
  {
    x := new Server(f.a, dec, enc, f.Before());
    x.Lead(1);
    PromotedIs(f);
    PromotedReached(x, f);
    Tick(x, f);
    assert x.Fit(f.e, {f.e}, {f.b, f.c}, Pruned(f.Before(), x.rounds));
    var some := x.MaybePromote({f.e}, {f.b, f.c}, true);
  }

  /** The first tick begins the learner's round. */
  method Tick(x: Server, f: Five)
    requires f.Differ() && x.Valid() && x.Coded() && x.leading && x.id == f.a && x.current == InForce(f.Before(), 0) && x.rounds == map[]
    requires x.log == [] && x.snapIndex == 0
    modifies x
    ensures x.Valid() && x.current == old(x.current) && x.log == [] && x.rounds == map[f.e := 0] && x.leading && x.base == old(x.base)
    ensures x.snapIndex == 0 && x.commitIndex == old(x.commitIndex) && x.matchIndex == old(x.matchIndex) && x.term == old(x.term)
  {
    assert !x.Fit(f.e, {}, {}, map[]);
    var none := x.MaybePromote({}, {}, true);
  }

  method RemoveFirst(f: Five, dec: Decoder, enc: Configuration -> seq<Byte>) returns (y: Server)
    requires f.Differ() && (forall c :: dec(enc(c)) == Some(c)) && |enc(f.Removed())| <= MAX_CONFIG_BYTES
    ensures fresh(y) && y.Valid() && y.leading && y.term == 2 && y.base == InForce(f.Before(), 0) && y.current.config == f.Removed()
  {
    y := new Server(f.b, dec, enc, f.Before());
    assert f.Before().servers[1] == f.b && f.Before().servers[0] == f.a;
    y.Lead(2);
    RemoveA(y, f);
  }

  method RemoveA(y: Server, f: Five)
    requires f.Differ() && y.Valid() && y.Coded() && y.leading && y.id == f.b && y.current == InForce(f.Before(), 0)
    requires |y.enc(f.Removed())| <= MAX_CONFIG_BYTES && IsMember(f.Before(), f.a)
    modifies y
    ensures y.Valid() && y.leading && y.term == old(y.term) && y.base == old(y.base) && y.current.config == f.Removed()
  {
    RemovedIs(f);
    RemovedReached(y, f);
    assert y.RemoveCheck(f.a) == Appended;
    var r := y.RemoveMember(f.a, {f.c}, true);
  }
}
