/** What the cluster can do: any voter can be elected, commit a command, have it applied on
    every server, and confirm a read, all in one run of the state machine. */
module Progress {
  import opened Basics
  import opened RaftLog
  import opened RaftNodeSpec
  import opened Cluster

  /** A path of the state machine, from any state. */
  datatype Path = Path(states: seq<State>, steps: seq<Step>)

  ghost predicate IsPath(p: Path) {
    |p.states| == |p.steps| + 1 && forall k :: 0 <= k < |p.steps| ==> Next(p.states[k], p.steps[k], p.states[k + 1])
  }

  ghost function Last(p: Path): State
    requires p.states != []
  {
    p.states[|p.states| - 1]
  }

  /** `q` continues `p`, among the same voters. */
  ghost predicate Goes(p: Path, q: Path) {
    IsPath(q) && p.states != [] && q.states[0] == p.states[0] && Last(q).voters == Last(p).voters
  }

  lemma Step1(p: Path, e: Step, t: State) returns (q: Path)
    requires IsPath(p) && Next(Last(p), e, t) && t.voters == Last(p).voters
    ensures Goes(p, q) && Last(q) == t
  {
    q := Path(p.states + [t], p.steps + [e]);
    forall k | 0 <= k < |q.steps| ensures Next(q.states[k], q.steps[k], q.states[k + 1]) {
      if k < |p.steps| { assert Next(p.states[k], p.steps[k], p.states[k + 1]); }
    }
  }

  // ----- the servers along the way

  /** A server that voted for `i` in term 1. */
  function Voted(i: Id): Node { InitNode().(term := 1, vote := Some(i)) }

  /** The leader's log: its no-op and the command. */
  function Two(command: seq<Byte>): Log { [Entry(1, 1, Normal, []), Entry(1, 2, Normal, command)] }

  /** With these entries in its log, not yet durable; durable; committed and applied. */
  function Queued(n: Node, command: seq<Byte>): Node {
    n.(log := Two(command), vers := [[], [Entry(1, 1, Normal, [])], Two(command)])
  }

  function Durable(n: Node, command: seq<Byte>): Node { n.(log := Two(command), vers := [Two(command)], durable := 2) }

  function Done(n: Node, command: seq<Byte>): Node { Durable(n, command).(commit := 2, applied := Two(command)) }

  /** One pass of the syncer makes them durable. */
  function Syncing(n: Node, command: seq<Byte>): Node { Queued(n, command).(sync := Captured(Two(command), 2)) }

  function Synced(n: Node, command: seq<Byte>): Node { Queued(n, command).(vers := [Two(command)], sync := Flushed(Two(command))) }

  lemma SyncPass(n: Node, command: seq<Byte>)
    requires n.sync == Idle && n.durable == 0
    ensures SyncBegin(Queued(n, command)) == Syncing(n, command)
    ensures SyncFlush(Syncing(n, command), 2) == Synced(n, command)
    ensures SyncEnd(Synced(n, command)) == Durable(n, command)
  {
    assert Queued(n, command).vers[2..] == [Two(command)];
  }

  // ----- the election

  ghost predicate Asking(s: State, i: Id, done: set<Id>) {
    && i in s.voters && done <= s.voters - {i} && s.nodes.Keys == s.voters
    && s.nodes[i] == Voted(i).(role := Candidate, votes := {i} + done)
    && (forall v :: v in s.voters && v != i ==> s.nodes[v] == if v in done then Voted(i) else InitNode())
    && VoteReq(VoteArgs(1, i, 0, 0)) in s.msgs && s.fences == map[] && s.committed == []
  }

  lemma Campaign(p: Path, i: Id) returns (q: Path)
    requires IsPath(p) && Init(Last(p)) && i in Last(p).voters
    ensures Goes(p, q) && Asking(Last(q), i, {})
  {
    var s := Last(p);
    var n := s.nodes[i];
    var n' := StartElection(n, i);
    var t := Send(Send(Put(s, i, n').(cand := s.cand[(1, i) := n.log]), VoteReq(VoteArgs(1, i, 0, 0))), VoteRsp(1, i, i));
    q := Step1(p, DoStartElection(i), t);
  }

  /** One more voter is asked, and its vote counted. */
  lemma AskOne(p: Path, i: Id, done: set<Id>, v: Id) returns (q: Path)
    requires IsPath(p) && Asking(Last(p), i, done) && v in Last(p).voters && v != i && v !in done
    ensures Goes(p, q) && Asking(Last(q), i, done + {v})
  {
    var s, m := Last(p), VoteReq(VoteArgs(1, i, 0, 0));
    var t := Send(Put(s, v, Voted(i)), VoteRsp(1, v, i));
    assert HandleRequestVote(InitNode(), s.voters, m.vote) == (Voted(i), VoteReply(1, true));
    var r := Step1(p, DoVote(v, m), t);
    var u := Put(t, i, t.nodes[i].(votes := t.nodes[i].votes + {v}));
    q := Step1(r, DoCountVote(i, VoteRsp(1, v, i)), u);
    assert {i} + done + {v} == {i} + (done + {v});
  }

  lemma {:induction false} AskAll(p: Path, i: Id, done: set<Id>) returns (q: Path)
    requires IsPath(p) && Asking(Last(p), i, done)
    ensures Goes(p, q) && Asking(Last(q), i, Last(p).voters - {i})
    decreases Last(p).voters - {i} - done
  {
    var left := Last(p).voters - {i} - done;
    if left == {} {
      q := p;
      assert done == Last(p).voters - {i};
    } else {
      var v :| v in left;
      var r := AskOne(p, i, done, v);
      q := AskAll(r, i, done + {v});
    }
  }

  lemma AllAreQuorum(voters: set<Id>)
    requires voters != {}
    ensures QuorumSize(|voters|, voters)
  {
    assert |voters| > 0;
  }

  // ----- the command

  /** The leader after its election, with the command in its log. */
  function Leading(i: Id, voters: set<Id>): Node { Voted(i).(role := Leader, votes := voters) }

  function Request(command: seq<Byte>): Msg { AppendReq(AppendArgs(1, 0, 0, Two(command), 0), None) }

  ghost function AllAt2(ids: set<Id>): map<Id, nat> { map v | v in ids :: 2 }

  /** The request is out; `acked` have answered it. */
  ghost predicate Sending(s: State, i: Id, command: seq<Byte>, acked: set<Id>) {
    && i in s.voters && acked <= s.voters - {i} && s.nodes.Keys == s.voters
    && s.nodes[i] == Queued(Leading(i, s.voters), command).(matched := AllAt2(acked))
    && (forall v :: v in s.voters && v != i ==> s.nodes[v] == if v in acked then Durable(Voted(i), command) else Voted(i))
    && Request(command) in s.msgs && s.fences == map[] && s.committed == []
  }

  lemma LeadAndSubmit(n: Node, command: seq<Byte>)
    requires n.term == 1 && n.log == [] && n.vers == [[]] && n.matched == map[]
    ensures AppendOwn(BecomeLeader(n), Normal, command) == Queued(n.(role := Leader), command)
  {
    var e := Entry(1, 1, Normal, []);
    assert [] + [e] == [e] && [e] + [Entry(1, 2, Normal, command)] == Two(command);
    assert [[]] + [[e]] + [Two(command)] == [[], [e], Two(command)];
  }

  lemma Elect(p: Path, i: Id, command: seq<Byte>) returns (q: Path)
    requires IsPath(p) && Asking(Last(p), i, Last(p).voters - {i})
    ensures Goes(p, q) && Sending(Last(q), i, command, {})
  {
    var s := Last(p);
    var n := s.nodes[i];
    assert n.votes == s.voters;
    AllAreQuorum(s.voters);
    LeadAndSubmit(n, command);
    var l := BecomeLeader(n);
    var t := Lead(s, i, l).(elect := s.elect[1 := Election(i, n.votes)]);
    var a := Step1(p, DoBecomeLeader(i), t);
    var u := Lead(t, i, AppendOwn(l, Normal, command));
    var b := Step1(a, DoSubmit(i, Normal, command), u);
    assert Two(command)[0..2] == Two(command) && TermAt(Two(command), 0) == 0;
    q := Step1(b, DoSendAppend(i, 0, 2), Send(u, Request(command)));
    assert AllAt2({}) == map[];
  }

  /** A follower takes the entries and parks its reply. */
  lemma TakesRequest(i: Id, command: seq<Byte>)
    ensures var n, w := Voted(i), Waiter(1, 2, 1);
      HandleAppendEntries(n, Request(command).append) == (Queued(n, command).(waiters := {w}), Parked(w))
  {
    var n, log := Voted(i), Two(command);
    assert FirstNew([], 0, log, 0) == 0;
    assert [] + log == log && log[0..] == log && log[..1] == [Entry(1, 1, Normal, [])] && log[..2] == log;
    var vs := Versions([], log);
    assert vs[0] == [] + log[..1] == [Entry(1, 1, Normal, [])] && vs[1] == [] + log[..2] == log;
    assert vs == [[Entry(1, 1, Normal, [])], log];
    assert [[]] + Versions([], log) == Queued(n, command).vers;
    assert {} + {Waiter(1, 2, 1)} == {Waiter(1, 2, 1)};
  }

  /** It answers once the entries are durable. */
  lemma Follows1(p: Path, i: Id, command: seq<Byte>, acked: set<Id>, v: Id) returns (q: Path)
    requires IsPath(p) && Sending(Last(p), i, command, acked) && v in Last(p).voters && v != i && v !in acked
    ensures Goes(p, q) && Last(q) == Put(Last(p), v, Queued(Voted(i), command).(waiters := {Waiter(1, 2, 1)}))
  {
    var s := Last(p);
    TakesRequest(i, command);
    q := Step1(p, DoAppend(v, Request(command)), Put(s, v, Queued(Voted(i), command).(waiters := {Waiter(1, 2, 1)})));
  }

  lemma PutTwice(s: State, i: Id, n: Node, n': Node)
    ensures Put(Put(s, i, n), i, n') == Put(s, i, n')
  {}

  /** The syncer of server `v` runs. */
  lemma SyncRuns(p: Path, v: Id, n: Node, command: seq<Byte>) returns (q: Path)
    requires IsPath(p) && v in Last(p).voters && v in Last(p).nodes && Last(p).nodes[v] == Queued(n, command) && n.sync == Idle && n.durable == 0
    ensures Goes(p, q) && Last(q) == Put(Last(p), v, Durable(n, command))
  {
    var s := Last(p);
    SyncPass(n, command);
    var a := Step1(p, DoSyncBegin(v), Put(s, v, Syncing(n, command)));
    var b := Step1(a, DoSyncFlush(v, 2), Put(Last(a), v, Synced(n, command)));
    q := Step1(b, DoSyncEnd(v), Put(Last(b), v, Durable(n, command)));
    PutTwice(s, v, Syncing(n, command), Synced(n, command));
    PutTwice(s, v, Synced(n, command), Durable(n, command));
  }

  lemma Answers1(p: Path, v: Id, i: Id, command: seq<Byte>) returns (q: Path)
    requires IsPath(p) && v in Last(p).voters && v in Last(p).nodes
    requires Last(p).nodes[v] == Durable(Voted(i).(waiters := {Waiter(1, 2, 1)}), command)
    ensures Goes(p, q) && AppendRsp(1, v, 2) in Last(q).msgs && Last(p).msgs <= Last(q).msgs
    ensures Last(q).nodes == Last(p).nodes[v := Durable(Voted(i), command)]
    ensures Last(q).fences == Last(p).fences && Last(q).committed == Last(p).committed
  {
    var s, w := Last(p), Waiter(1, 2, 1);
    var n := s.nodes[v];
    assert Decide(n, w) == Confirm;
    var s1 := Put(s, v, n.(waiters := n.waiters - {w}));
    q := Step1(p, DoAnswer(v, w), Replied(s1, v, n, Matched(1, 2), None));
    assert n.waiters - {w} == {};
  }

  /** All a follower does about the request. */
  lemma Acks(p: Path, i: Id, command: seq<Byte>, acked: set<Id>, v: Id) returns (q: Path)
    requires IsPath(p) && Sending(Last(p), i, command, acked) && v in Last(p).voters && v != i && v !in acked
    ensures Goes(p, q) && AppendRsp(1, v, 2) in Last(q).msgs && Last(p).msgs <= Last(q).msgs
    ensures Last(q).nodes == Last(p).nodes[v := Durable(Voted(i), command)]
    ensures Last(q).fences == Last(p).fences && Last(q).committed == Last(p).committed
  {
    var a := Follows1(p, i, command, acked, v);
    var b := SyncRuns(a, v, Voted(i).(waiters := {Waiter(1, 2, 1)}), command);
    q := Answers1(b, v, i, command);
  }

  lemma AckOne(p: Path, i: Id, command: seq<Byte>, acked: set<Id>, v: Id) returns (q: Path)
    requires IsPath(p) && Sending(Last(p), i, command, acked) && v in Last(p).voters && v != i && v !in acked
    ensures Goes(p, q) && Sending(Last(q), i, command, acked + {v})
  {
    var c := Acks(p, i, command, acked, v);
    var n := Last(c).nodes[i];
    assert n == Last(p).nodes[i];
    q := Step1(c, DoCountAck(i, AppendRsp(1, v, 2)), Put(Last(c), i, n.(matched := n.matched[v := 2])));
    assert n.matched[v := 2] == AllAt2(acked + {v});
  }

  lemma {:induction false} AckAll(p: Path, i: Id, command: seq<Byte>, acked: set<Id>) returns (q: Path)
    requires IsPath(p) && Sending(Last(p), i, command, acked)
    ensures Goes(p, q) && Sending(Last(q), i, command, Last(p).voters - {i})
    decreases Last(p).voters - {i} - acked
  {
    var left := Last(p).voters - {i} - acked;
    if left == {} {
      q := p;
      assert acked == Last(p).voters - {i};
    } else {
      var v :| v in left;
      var r := AckOne(p, i, command, acked, v);
      q := AckAll(r, i, command, acked + {v});
    }
  }

  // ----- commit, and everybody applies

  function Beat(): AppendArgs { AppendArgs(1, 2, 1, [], 2) }

  /** The leader committed and applied the command; of the others, `told` did. */
  ghost predicate Telling(s: State, i: Id, command: seq<Byte>, told: set<Id>) {
    && i in s.voters && told <= s.voters - {i} && s.nodes.Keys == s.voters
    && s.nodes[i] == Done(Leading(i, s.voters), command).(matched := AllAt2(s.voters - {i}))
    && (forall v :: v in s.voters && v != i ==> s.nodes[v] == if v in told then Done(Voted(i), command) else Durable(Voted(i), command))
    && AppendReq(Beat(), None) in s.msgs && s.fences == map[]
    && s.committed == Two(command)
  }

  lemma AllHold(n: Node, i: Id, voters: set<Id>)
    requires i in voters && n.durable == 2 && n.matched == AllAt2(voters - {i}) && n.commit == 0 && |n.log| == 2 && TermAt(n.log, 2) == n.term
    ensures Holders(n, i, voters, 2) == voters && CanCommit(n, i, voters, 2)
  {
    assert Holders(n, i, voters, 2) == voters;
    AllAreQuorum(voters);
  }

  lemma CommitIt(p: Path, i: Id, l: Node, command: seq<Byte>) returns (q: Path)
    requires IsPath(p) && i in Last(p).voters && i in Last(p).nodes && Last(p).nodes[i] == Durable(l, command) && Last(p).committed == []
    requires l == Leading(i, Last(p).voters).(matched := AllAt2(Last(p).voters - {i}))
    ensures Goes(p, q) && Last(q).nodes == Last(p).nodes[i := Done(l, command)] && Last(q).committed == Two(command)
    ensures Last(q).fences == Last(p).fences
  {
    var s, n := Last(p), Durable(l, command);
    AllHold(n, i, s.voters);
    assert n.log[..2] == Two(command);
    var t := Put(s, i, n.(commit := 2)).(
               acks := s.acks + {Ack(1, i, 2)},
               commits := s.commits + {Commit(1, 2, s.voters)},
               committed := Two(command));
    var b := Step1(p, DoCommit(i, 2), t);
    assert [] + Two(command)[0..2] == Two(command);
    q := Step1(b, DoApply(i, 2), Put(t, i, Done(l, command)));
  }

  lemma CommitAndTell(p: Path, i: Id, command: seq<Byte>) returns (q: Path)
    requires IsPath(p) && Sending(Last(p), i, command, Last(p).voters - {i})
    ensures Goes(p, q) && Telling(Last(q), i, command, {})
  {
    var l := Leading(i, Last(p).voters).(matched := AllAt2(Last(p).voters - {i}));
    var a := SyncRuns(p, i, l, command);
    var c := CommitIt(a, i, l, command);
    assert Two(command)[2..2] == [];
    q := Step1(c, DoSendAppend(i, 2, 0), Send(Last(c), AppendReq(Beat(), None)));
  }

  /** A heartbeat carries the commit index. */
  lemma TakesBeat(n: Node, command: seq<Byte>)
    requires n.term == 1 && n.role == Follower && n.snap == 0 && n.log == Two(command) && n.durable == 2 && n.commit <= 2
    ensures HandleAppendEntries(n, Beat()) == (n.(commit := 2), Matched(1, 2))
  {}

  lemma TellOne(p: Path, i: Id, command: seq<Byte>, told: set<Id>, v: Id) returns (q: Path)
    requires IsPath(p) && Telling(Last(p), i, command, told) && v in Last(p).voters && v != i && v !in told
    ensures Goes(p, q) && Telling(Last(q), i, command, told + {v})
  {
    var s, n := Last(p), Durable(Voted(i), command);
    TakesBeat(n, command);
    var t := Replied(Put(s, v, n.(commit := 2)), v, n.(commit := 2), Matched(1, 2), None);
    var a := Step1(p, DoAppend(v, AppendReq(Beat(), None)), t);
    assert [] + Two(command)[0..2] == Two(command);
    q := Step1(a, DoApply(v, 2), Put(t, v, Done(Voted(i), command)));
  }

  lemma {:induction false} TellAll(p: Path, i: Id, command: seq<Byte>, told: set<Id>) returns (q: Path)
    requires IsPath(p) && Telling(Last(p), i, command, told)
    ensures Goes(p, q) && Telling(Last(q), i, command, Last(p).voters - {i})
    decreases Last(p).voters - {i} - told
  {
    var left := Last(p).voters - {i} - told;
    if left == {} {
      q := p;
      assert told == Last(p).voters - {i};
    } else {
      var v :| v in left;
      var r := TellOne(p, i, command, told, v);
      q := TellAll(r, i, command, told + {v});
    }
  }

  // ----- a read

  /** Every server applied the command. */
  ghost predicate AllDone(s: State, i: Id, command: seq<Byte>) {
    && i in s.voters && s.nodes.Keys == s.voters && s.nodes[i] == Done(Leading(i, s.voters), command).(matched := AllAt2(s.voters - {i}))
    && forall v :: v in s.voters && v != i ==> s.nodes[v] == Done(Voted(i), command)
  }

  /** Read `r` has its fence, and `oks` confirmed it. */
  ghost predicate Reading(s: State, i: Id, command: seq<Byte>, r: nat, oks: set<Id>) {
    && AllDone(s, i, command) && AppendReq(Beat(), Some(r)) in s.msgs && r in s.fences
    && s.fences[r].leader == i && s.fences[r].term == 1 && s.fences[r].fence == 2 && s.fences[r].oks == oks && s.committed == Two(command)
  }

  lemma ReadBegins(p: Path, i: Id, command: seq<Byte>, r: nat) returns (q: Path)
    requires IsPath(p) && Telling(Last(p), i, command, Last(p).voters - {i})
    ensures Goes(p, q) && Reading(Last(q), i, command, r, {i})
  {
    var s := Last(p);
    var t := Send(s, AppendReq(Beat(), Some(r))).(fences := s.fences[r := Read(i, 1, 2, s.commits, {i})]);
    q := Step1(p, DoReadBegin(i, r), t);
  }

  lemma ConfirmOne(p: Path, i: Id, command: seq<Byte>, r: nat, oks: set<Id>, v: Id) returns (q: Path)
    requires IsPath(p) && Reading(Last(p), i, command, r, oks) && v in Last(p).voters && v != i
    ensures Goes(p, q) && Reading(Last(q), i, command, r, oks + {v})
  {
    var s, n := Last(p), Done(Voted(i), command);
    TakesBeat(n, command);
    var t := Send(Put(s, v, n), ReadRsp(r, v, 1));
    var a := Step1(p, DoAppend(v, AppendReq(Beat(), Some(r))), t);
    var u := t.(fences := t.fences[r := t.fences[r].(oks := t.fences[r].oks + {v})]);
    q := Step1(a, DoReadCount(i, ReadRsp(r, v, 1)), u);
  }

  lemma {:induction false} ConfirmAll(p: Path, i: Id, command: seq<Byte>, r: nat, oks: set<Id>) returns (q: Path)
    requires IsPath(p) && Reading(Last(p), i, command, r, oks) && i in oks && oks <= Last(p).voters
    ensures Goes(p, q) && Reading(Last(q), i, command, r, Last(p).voters)
    decreases Last(p).voters - oks
  {
    var left := Last(p).voters - oks;
    if left == {} {
      q := p;
      assert forall v :: v in Last(p).voters ==> v !in left;
    } else {
      var v :| v in left;
      var a := ConfirmOne(p, i, command, r, oks, v);
      q := ConfirmAll(a, i, command, r, oks + {v});
    }
  }

  // ----- the whole run

  lemma Told(s: State, i: Id, command: seq<Byte>) returns (q: Path)
    requires Init(s) && i in s.voters
    ensures IsPath(q) && q.states[0] == s && Last(q).voters == s.voters && Telling(Last(q), i, command, {})
  {
    q := Campaign(Path([s], []), i);
    q := AskAll(q, i, {});
    q := Elect(q, i, command);
    q := AckAll(q, i, command, {});
    q := CommitAndTell(q, i, command);
  }

  lemma Whole(s: State, i: Id, command: seq<Byte>, r: nat) returns (q: Path)
    requires Init(s) && i in s.voters
    ensures IsPath(q) && q.states[0] == s && Last(q).voters == s.voters && Reading(Last(q), i, command, r, s.voters)
  {
    q := Told(s, i, command);
    q := TellAll(q, i, command, {});
    q := ReadBegins(q, i, command, r);
    q := ConfirmAll(q, i, command, r, {i});
  }

  /** From the start, among any voters, any one of them can lead, and any command can be
      committed and applied by all; then any read is confirmed by all, behind that command. */
  lemma CommandCommits(s: State, i: Id, command: seq<Byte>, r: nat) returns (states: seq<State>, steps: seq<Step>)
    requires Init(s) && i in s.voters
    ensures IsRun(states, steps) && states[0] == s
    ensures var t := states[|states| - 1];
      && t.voters == s.voters && t.nodes.Keys == s.voters && t.nodes[i].role == Leader && t.committed == Two(command)
      && (forall v :: v in s.voters ==> t.nodes[v].applied == Two(command))
      && r in t.fences && t.fences[r].fence == 2 && t.fences[r].oks == s.voters
  {
    var q := Whole(s, i, command, r);
    states, steps := q.states, q.steps;
  }

  // ----- a server that is behind

  lemma CapturedAll(n: Node, command: seq<Byte>)
    requires n == Done(n, command) && n.sync == Idle
    ensures Capture(n, 2) == n.(snap := 2)
  {}

  lemma InstalledAll(i: Id, command: seq<Byte>)
    ensures Install(Durable(Voted(i), command), Two(command)) == Done(Voted(i), command).(snap := 2)
    ensures var n := Done(Voted(i), command).(snap := 2); RestartAt(n, Two(command), 2) && Restart(n, Two(command), 2) == n
  {
    assert Two(command)[..2] == Two(command);
  }

  /** The leader compacts its log and offers the snapshot. */
  lemma Offers(p: Path, i: Id, command: seq<Byte>) returns (q: Path)
    requires IsPath(p) && Telling(Last(p), i, command, {})
    ensures Goes(p, q) && SnapReq(1, Two(command)) in Last(q).msgs
    ensures Last(q).nodes == Last(p).nodes[i := Last(p).nodes[i].(snap := 2)] && Last(q).committed == Last(p).committed
  {
    var s, n := Last(p), Last(p).nodes[i];
    CapturedAll(n, command);
    var a := Step1(p, DoCapture(i, 2), Put(s, i, n.(snap := 2)));
    assert Two(command)[..2] == Two(command);
    q := Step1(a, DoSendSnapshot(i), Send(Last(a), SnapReq(1, Two(command))));
  }

  /** A follower installs it and the leader hears of it; a restart changes nothing any more. */
  lemma Takes(p: Path, i: Id, v: Id, command: seq<Byte>) returns (q: Path)
    requires IsPath(p) && SnapReq(1, Two(command)) in Last(p).msgs && v in Last(p).voters && v in Last(p).nodes && v != i
    requires i in Last(p).voters && i in Last(p).nodes && Last(p).nodes[v] == Durable(Voted(i), command)
    requires var n := Last(p).nodes[i]; n.role == Leader && n.snap == 2
    ensures Goes(p, q) && v in Last(q).nodes && Last(q).nodes[v] == Done(Voted(i), command).(snap := 2) && Last(q).committed == Last(p).committed
  {
    var n := Done(Voted(i), command).(snap := 2);
    InstalledAll(i, command);
    var a := Step1(p, DoInstall(v, SnapReq(1, Two(command))), Put(Last(p), v, n));
    var l := Last(a).nodes[i];
    var b := Step1(a, DoConfirmSnapshot(i, v, 2), Put(Last(a), i, l.(matched := l.matched[v := Max(MatchedAt(l, v), 2)])));
    q := Step1(b, DoRestart(v, 0, 2), Put(Last(b), v, n));
  }

  /** A server that was never told of the commit can get the command by snapshot instead, and
      still has it applied after a restart. */
  lemma SnapshotCatchesUp(s: State, i: Id, v: Id, command: seq<Byte>) returns (states: seq<State>, steps: seq<Step>)
    requires Init(s) && i in s.voters && v in s.voters && v != i
    ensures IsRun(states, steps) && states[0] == s
    ensures var t := states[|states| - 1]; v in t.nodes && t.nodes[v].applied == Two(command) && t.nodes[v].snap == 2 && t.committed == Two(command)
  {
    var q := Told(s, i, command);
    q := Offers(q, i, command);
    q := Takes(q, i, v, command);
    states, steps := q.states, q.steps;
  }

}
