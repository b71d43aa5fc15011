/** Elections among servers whose raft_meta writes can fail, that can die at any point and
    that can come back with their term raised by their log: one leader per term. */
module Elections {
  import opened Basics
  import opened RaftNodeSpec
  import opened Cluster
  import opened Completeness
  import opened Ballot

  /** `votes` are those counted so far in the election begun in term `asked`.  A candidate
      whose next election could not be saved is in a later term than it asked in. */
  datatype Server = Server(ballot: Ballot, up: bool, role: Role, asked: nat, votes: set<Id>)

  /** `voter` told `candidate` in `term` that it has its vote. */
  datatype Grant = Grant(voter: Id, term: nat, candidate: Id)

  /** Grants sent stay in `grants`: a reply may arrive late, more than once or never. */
  datatype System = System(voters: set<Id>, servers: map<Id, Server>, grants: set<Grant>, leaders: set<(nat, Id)>)

  datatype Step =
    | Elect(id: Id, works: bool)
    | Answered(id: Id, args: VoteArgs, upToDate: bool, writes: (bool, bool, bool))
    | Count(id: Id, voter: Id)
    | Adopted(id: Id, term: nat, works: bool)
    | Retried(id: Id, works: bool)
    | SteppedDown(id: Id)
    | Died(id: Id)
    | Restarted(id: Id, found: Meta, lastLogTerm: nat, works: bool)

  ghost predicate Init(s: System) {
    && "" !in s.voters && s.grants == {} && s.leaders == {}
    && forall id :: id in s.servers ==> s.servers[id] == Server(Ballot(Meta(0, ""), Meta(0, ""), {}), true, Follower, 0, {})
  }

  ghost predicate Enabled(s: System, e: Step) {
    && e.id in s.servers
    && match e
       case Elect(id, _) => s.servers[id].up && id in s.voters && s.servers[id].role != Leader
       case Count(id, voter) =>
         && s.servers[id].up && s.servers[id].role == Candidate && s.servers[id].ballot.now.term == s.servers[id].asked
         && voter in s.voters && Grant(voter, s.servers[id].asked, id) in s.grants
       case Adopted(id, term, _) => s.servers[id].up && term > s.servers[id].ballot.now.term
       case Restarted(id, found, _, _) => found == s.servers[id].ballot.saved || found in s.servers[id].ballot.maybe
       case _ => s.servers[e.id].up
  }

  ghost function Put(s: System, id: Id, n: Server): System { s.(servers := s.servers[id := n]) }

  /** A candidate with the votes of a majority leads its term. */
  ghost function Won(s: System, id: Id, n: Server): System {
    if QuorumSize(|n.votes|, s.voters) then
      Put(s, id, n.(role := Leader)).(leaders := s.leaders + {(n.asked, id)})
    else
      Put(s, id, n)
  }

  ghost function Next(s: System, e: Step): System
    requires Enabled(s, e)
  {
    var n := s.servers[e.id];
    match e
    case Elect(id, works) =>
      var (b, solicits) := Stand(n.ballot, id, works);
      if solicits then
        Won(s.(grants := s.grants + {Grant(id, b.now.term, id)}), id, n.(ballot := b, role := Candidate, asked := b.now.term, votes := {id}))
      else
        Put(s, id, n.(ballot := b))
    case Answered(id, args, upToDate, writes) =>
      var (b, reply) := Answer(n.ballot, s.voters, args, upToDate, writes);
      var n1 := n.(ballot := b, role := if b.now.term > n.ballot.now.term then Follower else n.role);
      Put(s, id, n1).(grants := s.grants + if reply.granted then {Grant(id, args.term, args.candidate)} else {})
    case Count(id, voter) => Won(s, id, n.(votes := n.votes + {voter}))
    case Adopted(id, term, works) => Put(s, id, n.(ballot := Adopt(n.ballot, term, works), role := Follower))
    case Retried(id, works) => Put(s, id, n.(ballot := Save(n.ballot, works).0))
    case SteppedDown(id) => Put(s, id, n.(role := Follower))
    case Died(id) => Put(s, id, n.(up := false))
    case Restarted(id, found, lastLogTerm, works) =>
      var (b, started) := Reopen(found, lastLogTerm, works);
      Put(s, id, Server(b, started, Follower, 0, {}))
  }

  /** The votes `voter` gave away. */
  ghost function Given(grants: set<Grant>, voter: Id): set<Meta> {
    set g | g in grants && g.voter == voter :: Meta(g.term, g.candidate)
  }

  /** Each of `votes` was given to `id` in `term`. */
  ghost predicate Backed(votes: set<Id>, grants: set<Grant>, term: nat, id: Id) {
    forall v :: v in votes ==> Grant(v, term, id) in grants
  }

  ghost predicate Elected(s: System, term: nat, id: Id) {
    exists q :: IsQuorum(q, s.voters) && Backed(q, s.grants, term, id)
  }

  ghost predicate ServerOk(s: System, id: Id) {
    id in s.servers ==>
      var n := s.servers[id];
      && BallotOk(n.ballot, Given(s.grants, id))
      && n.votes <= s.voters && Backed(n.votes, s.grants, n.asked, id)
      && (n.role == Leader ==> (n.ballot.now.term, id) in s.leaders)
  }

  /** Every server that gave a vote is known. */
  ghost predicate GrantOk(s: System, g: Grant) { g.voter in s.servers }

  ghost predicate Inv(s: System) {
    && "" !in s.voters
    && (forall g :: g in s.grants ==> GrantOk(s, g))
    && (forall id :: ServerOk(s, id))
    && (forall l :: l in s.leaders ==> Elected(s, l.0, l.1))
  }

  lemma GivenGrows(grants: set<Grant>, voter: Id, term: nat, candidate: Id)
    ensures Given(grants + {Grant(voter, term, candidate)}, voter) == Given(grants, voter) + {Meta(term, candidate)}
    ensures forall id :: id != voter ==> Given(grants + {Grant(voter, term, candidate)}, id) == Given(grants, id)
  {
    var more := grants + {Grant(voter, term, candidate)};
    assert Grant(voter, term, candidate) in more;
    forall m | m in Given(grants, voter) ensures m in Given(more, voter) {
      var g :| g in grants && g.voter == voter && Meta(g.term, g.candidate) == m;
      assert g in more;
    }
    forall id | id != voter ensures Given(more, id) == Given(grants, id) {
      forall m | m in Given(grants, id) ensures m in Given(more, id) {
        var g :| g in grants && g.voter == id && Meta(g.term, g.candidate) == m;
        assert g in more;
      }
    }
  }

  lemma ElectedGrows(s: System, t: System, term: nat, id: Id)
    requires Elected(s, term, id) && s.voters == t.voters && s.grants <= t.grants
    ensures Elected(t, term, id)
  {
    var q :| IsQuorum(q, s.voters) && Backed(q, s.grants, term, id);
    assert Backed(q, t.grants, term, id);
  }

  /** Only server `id` changed, no grant of another server is new, and what is left to show
      of `t` holds. */
  lemma ChangedOk(s: System, t: System, id: Id)
    requires Inv(s) && id in s.servers && t.voters == s.voters && s.grants <= t.grants
    requires t.servers.Keys == s.servers.Keys && (forall i :: i in s.servers && i != id ==> t.servers[i] == s.servers[i])
    requires forall g :: g in t.grants - s.grants ==> g.voter == id
    requires forall i :: i != id ==> Given(t.grants, i) == Given(s.grants, i)
    requires ServerOk(t, id) && s.leaders <= t.leaders
    requires forall l :: l in t.leaders ==> l in s.leaders || Elected(t, l.0, l.1)
    ensures Inv(t)
  {
    forall i ensures ServerOk(t, i) {
      assert ServerOk(s, i);
    }
    forall l | l in t.leaders ensures Elected(t, l.0, l.1) {
      if l in s.leaders { ElectedGrows(s, t, l.0, l.1); }
    }
  }

  /** What a candidate needs to lead or to go on waiting. */
  lemma WonOk(s: System, id: Id, n: Server, s0: System)
    requires Inv(s0) && id in s0.servers && s.voters == s0.voters && s.servers == s0.servers && s.leaders == s0.leaders
    requires s0.grants <= s.grants && (forall g :: g in s.grants - s0.grants ==> g.voter == id)
    requires forall i :: i != id ==> Given(s.grants, i) == Given(s0.grants, i)
    requires n.votes <= s.voters && Backed(n.votes, s.grants, n.asked, id)
    requires BallotOk(n.ballot, Given(s.grants, id)) && n.role == Candidate && n.ballot.now.term == n.asked
    ensures Inv(Won(s, id, n))
  {
    var t := Won(s, id, n);
    if QuorumSize(|n.votes|, s.voters) {
      assert IsQuorum(n.votes, t.voters) && Backed(n.votes, t.grants, n.asked, id);
    }
    ChangedOk(s0, t, id);
  }

  lemma ElectOk(s: System, id: Id, works: bool)
    requires Inv(s) && Enabled(s, Elect(id, works))
    ensures Inv(Next(s, Elect(id, works)))
  {
    var n := s.servers[id];
    assert ServerOk(s, id);
    var (b, solicits) := Stand(n.ballot, id, works);
    StandOk(n.ballot, id, works, Given(s.grants, id));
    if solicits {
      GivenGrows(s.grants, id, b.now.term, id);
      var s1 := s.(grants := s.grants + {Grant(id, b.now.term, id)});
      WonOk(s1, id, n.(ballot := b, role := Candidate, asked := b.now.term, votes := {id}), s);
    } else {
      assert Given(s.grants, id) + {} == Given(s.grants, id);
      ChangedOk(s, Next(s, Elect(id, works)), id);
    }
  }

  lemma AnsweredOk(s: System, id: Id, args: VoteArgs, upToDate: bool, writes: (bool, bool, bool))
    requires Inv(s) && Enabled(s, Answered(id, args, upToDate, writes))
    ensures Inv(Next(s, Answered(id, args, upToDate, writes)))
  {
    var n, t := s.servers[id], Next(s, Answered(id, args, upToDate, writes));
    assert ServerOk(s, id);
    var (b, reply) := Answer(n.ballot, s.voters, args, upToDate, writes);
    AnswerOk(n.ballot, s.voters, args, upToDate, writes, Given(s.grants, id));
    if reply.granted {
      GivenGrows(s.grants, id, args.term, args.candidate);
    } else {
      assert t.grants == s.grants && Given(s.grants, id) + {} == Given(s.grants, id);
    }
    ChangedOk(s, t, id);
  }

  lemma CountOk(s: System, id: Id, voter: Id)
    requires Inv(s) && Enabled(s, Count(id, voter))
    ensures Inv(Next(s, Count(id, voter)))
  {
    var n := s.servers[id];
    assert ServerOk(s, id);
    WonOk(s, id, n.(votes := n.votes + {voter}), s);
  }

  /** Every step keeps the invariant. */
  lemma StepOk(s: System, e: Step)
    requires Inv(s) && Enabled(s, e)
    ensures Inv(Next(s, e))
  {
    assert ServerOk(s, e.id);
    var b, given := s.servers[e.id].ballot, Given(s.grants, e.id);
    match e
    case Elect(id, works) => ElectOk(s, id, works);
    case Answered(id, args, upToDate, writes) => AnsweredOk(s, id, args, upToDate, writes);
    case Count(id, voter) => CountOk(s, id, voter);
    case Adopted(id, term, works) =>
      AdoptOk(b, term, works, given);
      ChangedOk(s, Next(s, e), id);
    case Retried(id, works) =>
      SaveOk(b, works, given);
      ChangedOk(s, Next(s, e), id);
    case SteppedDown(id) => ChangedOk(s, Next(s, e), id);
    case Died(id) => ChangedOk(s, Next(s, e), id);
    case Restarted(id, found, lastLogTerm, works) =>
      ReopenOk(b, found, lastLogTerm, works, given);
      ChangedOk(s, Next(s, e), id);
  }

  ghost predicate IsRun(states: seq<System>, steps: seq<Step>) {
    && |states| == |steps| + 1 && Init(states[0])
    && forall k :: 0 <= k < |steps| ==> Enabled(states[k], steps[k]) && states[k + 1] == Next(states[k], steps[k])
  }

  lemma {:induction false} RunOk(states: seq<System>, steps: seq<Step>, k: nat)
    requires IsRun(states, steps) && k < |states|
    ensures Inv(states[k])
  {
    if k > 0 {
      RunOk(states, steps, k - 1);
      assert Enabled(states[k - 1], steps[k - 1]);
      StepOk(states[k - 1], steps[k - 1]);
    }
  }

  lemma {:induction false} LeadersGrow(states: seq<System>, steps: seq<Step>, k: nat, j: nat)
    requires IsRun(states, steps) && k <= j < |states|
    ensures states[k].leaders <= states[j].leaders
    decreases j - k
  {
    if k < j {
      LeadersGrow(states, steps, k, j - 1);
      assert Enabled(states[j - 1], steps[j - 1]);
    }
  }

  /** At most one server is ever elected in a term. */
  lemma ElectedOnce(s: System, term: nat, a: Id, b: Id)
    requires Inv(s) && Elected(s, term, a) && Elected(s, term, b)
    ensures a == b
  {
    var qa :| IsQuorum(qa, s.voters) && Backed(qa, s.grants, term, a);
    var qb :| IsQuorum(qb, s.voters) && Backed(qb, s.grants, term, b);
    var v := QuorumsMeet(qa, qb, s.voters);
    assert Grant(v, term, a) in s.grants && Grant(v, term, b) in s.grants;
    assert GrantOk(s, Grant(v, term, a)) && ServerOk(s, v);
    assert Meta(term, a) in Given(s.grants, v) && Meta(term, b) in Given(s.grants, v);
  }

  /** In any run, two servers that lead the same term, at the same time or not, are one. */
  lemma OneLeaderPerTerm(states: seq<System>, steps: seq<Step>, k: nat, j: nat, a: Id, b: Id)
    requires IsRun(states, steps) && k <= j < |states|
    requires a in states[k].servers && states[k].servers[a].role == Leader
    requires b in states[j].servers && states[j].servers[b].role == Leader
    requires states[k].servers[a].ballot.now.term == states[j].servers[b].ballot.now.term
    ensures a == b
  {
    var s, t, term := states[k], states[j], states[j].servers[b].ballot.now.term;
    RunOk(states, steps, k);
    RunOk(states, steps, j);
    assert ServerOk(s, a) && ServerOk(t, b);
    LeadersGrow(states, steps, k, j);
    assert (term, a) in t.leaders && (term, b) in t.leaders;
    ElectedOnce(t, term, a, b);
  }

  // ----- elections succeed

  ghost predicate Reaches(s: System, steps: seq<Step>, t: System)
    decreases |steps|
  {
    if steps == [] then s == t else Enabled(s, steps[0]) && Reaches(Next(s, steps[0]), steps[1..], t)
  }

  lemma {:induction false} ReachesThen(s: System, first: seq<Step>, t: System, rest: seq<Step>, u: System)
    requires Reaches(s, first, t) && Reaches(t, rest, u)
    ensures Reaches(s, first + rest, u)
    decreases |first|
  {
    if first == [] {
      assert first + rest == rest;
    } else {
      ReachesThen(Next(s, first[0]), first[1..], t, rest, u);
      assert (first + rest)[1..] == first[1..] + rest;
    }
  }

  ghost predicate Campaigns(s: System, id: Id, term: nat) {
    && id in s.servers && var n := s.servers[id];
       n.up && n.role == Candidate && n.asked == n.ballot.now.term == term
  }

  /** Counting a vote makes a candidate the leader exactly if more than half have now voted
      for it. */
  lemma CountLeads(s: System, id: Id, voter: Id)
    requires Enabled(s, Count(id, voter))
    ensures var t := Next(s, Count(id, voter)); var votes := s.servers[id].votes + {voter};
      && t.servers[id] == s.servers[id].(votes := votes, role := if 2 * |votes| > |s.voters| then Leader else Candidate)
      && t.leaders == s.leaders + (if 2 * |votes| > |s.voters| then {(s.servers[id].asked, id)} else {})
      && t.grants == s.grants && t.voters == s.voters
  {}

  /** A candidate that more than half of the voters voted for can count their votes and lead. */
  lemma {:induction false} MajorityLeads(s: System, id: Id, term: nat, q: set<Id>) returns (steps: seq<Step>, t: System)
    requires Campaigns(s, id, term) && q <= s.voters && 2 * |q| > |s.voters| && Backed(q, s.grants, term, id)
    ensures Reaches(s, steps, t) && t.servers.Keys == s.servers.Keys && t.servers[id].role == Leader && (term, id) in t.leaders
    decreases q - s.servers[id].votes
  {
    assert q != {};
    var left := q - s.servers[id].votes;
    var v :| v in if left != {} then left else q;
    var t1 := Next(s, Count(id, v));
    CountLeads(s, id, v);
    if left == {} { SubsetSize(q, t1.servers[id].votes); }
    if t1.servers[id].role == Leader {
      steps, t := [Count(id, v)], t1;
      assert Reaches(t1, steps[1..], t);
    } else {
      var rest;
      rest, t := MajorityLeads(t1, id, term, q);
      steps := [Count(id, v)] + rest;
      assert steps[1..] == rest;
    }
  }

  /** A server that is up, was not asked yet and is in an earlier term. */
  ghost predicate Ready(s: System, v: Id, term: nat) {
    v in s.servers && s.servers[v].up && s.servers[v].ballot.now.term < term
  }

  /** Asked with an up-to-date log and working writes, such a server gives its vote. */
  lemma ReadyGrants(s: System, v: Id, id: Id, a: VoteArgs)
    requires Ready(s, v, a.term) && a.candidate == id && id in s.voters && v != id
    ensures var e := Answered(v, a, true, (true, true, true)); var t := Next(s, e);
      && Enabled(s, e) && t.grants == s.grants + {Grant(v, a.term, id)} && t.voters == s.voters && t.leaders == s.leaders
      && t.servers.Keys == s.servers.Keys && forall i :: i in s.servers && i != v ==> t.servers[i] == s.servers[i]
  {
    assert Answer(s.servers[v].ballot, s.voters, a, true, (true, true, true)).1.granted;
  }

  /** All of `q` that have not voted yet are asked in turn. */
  lemma {:induction false} QuorumGrants(s: System, id: Id, a: VoteArgs, q: set<Id>) returns (steps: seq<Step>, t: System)
    requires Campaigns(s, id, a.term) && a.candidate == id && id in s.voters
    requires forall v :: v in q && Grant(v, a.term, id) !in s.grants ==> v != id && Ready(s, v, a.term)
    ensures Reaches(s, steps, t) && t.voters == s.voters && t.servers.Keys == s.servers.Keys
    ensures Campaigns(t, id, a.term) && Backed(q, t.grants, a.term, id)
    decreases |set v | v in q && Grant(v, a.term, id) !in s.grants|
  {
    var left := set v | v in q && Grant(v, a.term, id) !in s.grants;
    if left == {} {
      steps, t := [], s;
      assert forall v :: v in q ==> v !in left;
    } else {
      var v :| v in left;
      ReadyGrants(s, v, id, a);
      var t1 := Next(s, Answered(v, a, true, (true, true, true)));
      assert (set w | w in q && Grant(w, a.term, id) !in t1.grants) == left - {v};
      var rest;
      rest, t := QuorumGrants(t1, id, a, q);
      steps := [Answered(v, a, true, (true, true, true))] + rest;
      assert steps[1..] == rest;
    }
  }

  /** A voter whose next term is later than that of more than half of the voters, all up and
      with logs no more up to date, can be elected in it. */
  lemma QuorumElects(s: System, id: Id, a: VoteArgs, q: set<Id>) returns (steps: seq<Step>, t: System)
    requires Inv(s) && id in s.servers && s.servers[id].up && s.servers[id].role != Leader && id in s.voters
    requires a.candidate == id && a.term == s.servers[id].ballot.now.term + 1
    requires q <= s.voters && 2 * |q| > |s.voters| && forall v :: v in q && v != id ==> Ready(s, v, a.term)
    ensures Reaches(s, steps, t) && id in t.servers && t.servers[id].role == Leader && (a.term, id) in t.leaders
  {
    assert ServerOk(s, id);
    var e := Elect(id, true);
    var s1 := Next(s, e);
    StandMeans(s.servers[id].ballot, id, true);
    if 2 * |{id}| > |s.voters| {
      steps, t := [e], s1;
      assert Reaches(s1, steps[1..], t);
    } else {
      var asked, t1 := QuorumGrants(s1, id, a, q);
      var counted;
      counted, t := MajorityLeads(t1, id, a.term, q);
      ReachesThen(s1, asked, t1, counted, t);
      steps := [e] + (asked + counted);
      assert steps[1..] == asked + counted;
    }
  }
}
