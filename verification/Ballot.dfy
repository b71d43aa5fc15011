/** Term and vote of one server, in memory and in raft_meta, when writes can fail and
    the process can die at any point. */
module Ballot {
  import opened Basics
  import opened RaftNodeSpec

  /** What raft_meta holds; no vote is "". */
  datatype Meta = Meta(term: nat, vote: Id)

  /** `saved` is what the store last wrote or read.  A write that fails after its rename
      may be what a restart finds: `maybe` holds those. */
  datatype Ballot = Ballot(now: Meta, saved: Meta, maybe: set<Meta>)

  /** Make term and vote durable; nothing to do when they are already. */
  function Save(s: Ballot, works: bool): (Ballot, bool) {
    if s.saved == s.now then (s, true)
    else if works then (s.(saved := s.now, maybe := {}), true)
    else (s.(maybe := s.maybe + {s.now}), false)
  }

  /** Adopt a later term.  Callers that go on to answer save again. */
  function Adopt(s: Ballot, term: nat, works: bool): Ballot {
    Save(s.(now := Meta(term, "")), works).0
  }

  function Vote(s: Ballot, candidate: Id, upToDate: bool, works: bool): (Ballot, VoteReply) {
    if (s.now.vote == "" || s.now.vote == candidate) && upToDate then
      var (s1, saved) := Save(s.(now := s.now.(vote := candidate)), works);
      (if saved then s1 else s1.(now := s.now), VoteReply(s.now.term, saved))
    else
      (s, VoteReply(s.now.term, false))
  }

  /** `works` says which of the writes succeed, in order: inside the term change, its
      retry, and the vote. */
  function Answer(s: Ballot, voters: set<Id>, a: VoteArgs, upToDate: bool, works: (bool, bool, bool)): (Ballot, VoteReply) {
    if a.candidate !in voters || a.term < s.now.term then (s, VoteReply(s.now.term, false))
    else if a.term == s.now.term then Vote(s, a.candidate, upToDate, works.2)
    else
      var (s1, saved) := Save(Adopt(s, a.term, works.0), works.1);
      if saved then Vote(s1, a.candidate, upToDate, works.2) else (s1, VoteReply(s.now.term, false))
  }

  /** A server votes for itself in the next term; it asks others only once that is saved. */
  function Stand(s: Ballot, id: Id, works: bool): (Ballot, bool) {
    Save(s.(now := Meta(s.now.term + 1, id)), works)
  }

  /** A restart reads raft_meta; a log that ends in a later term raises it.  If that cannot
      be written the server does not start. */
  function Reopen(found: Meta, lastLogTerm: nat, works: bool): (Ballot, bool) {
    if lastLogTerm > found.term then Save(Ballot(Meta(lastLogTerm, ""), found, {}), works)
    else (Ballot(found, found, {}), true)
  }

  /** Term and vote are saved exactly if they were already or the write works; one that fails
      may still be what a restart finds. */
  lemma SaveMeans(s: Ballot, works: bool)
    ensures var (s1, ok) := Save(s, works);
      && s1.now == s.now && (ok <==> works || s.saved == s.now) && (ok ==> s1.saved == s.now)
      && (!ok ==> s1.saved == s.saved && s1.maybe == s.maybe + {s.now})
  {}

  /** `a` may have the vote: it is a voter of this term or a later one, with an up-to-date
      log, and nobody else of that term has it. */
  ghost predicate Eligible(s: Ballot, voters: set<Id>, a: VoteArgs, upToDate: bool) {
    && a.candidate in voters && a.term >= s.now.term && upToDate
    && (a.term > s.now.term || s.now.vote == "" || s.now.vote == a.candidate)
  }

  /** Which writes succeed that are needed: one of the two for the term, and that for the
      vote unless it is on disk already. */
  ghost predicate WritesDo(s: Ballot, a: VoteArgs, works: (bool, bool, bool)) {
    && (a.term > s.now.term ==> works.0 || works.1)
    && (works.2 || (a.term == s.now.term && s.saved == Meta(a.term, a.candidate)))
  }

  /** The vote is granted exactly to who may have it if those writes succeed; a later term is
      adopted in any case, and told once it is on disk. */
  lemma AnswerMeans(s: Ballot, voters: set<Id>, a: VoteArgs, upToDate: bool, works: (bool, bool, bool))
    requires s.saved.term <= s.now.term && "" !in voters
    ensures var (s1, reply) := Answer(s, voters, a, upToDate, works);
      var later := a.candidate in voters && a.term > s.now.term;
      && (reply.granted <==> Eligible(s, voters, a, upToDate) && WritesDo(s, a, works))
      && s1.now.term == (if later then a.term else s.now.term)
      && s1.now.vote == (if reply.granted then a.candidate else if later then "" else s.now.vote)
      && reply.term == (if later && (works.0 || works.1) then a.term else s.now.term)
      && (reply.granted || (later && (works.0 || works.1)) ==> s1.saved == s1.now)
  {}

  /** Whatever fails, a vote is granted only from disk, and only to who may have it. */
  lemma GrantedMeans(s: Ballot, voters: set<Id>, a: VoteArgs, upToDate: bool, works: (bool, bool, bool))
    ensures var (s1, reply) := Answer(s, voters, a, upToDate, works);
      reply.granted ==>
        && s1.saved == s1.now == Meta(a.term, a.candidate) && upToDate && a.candidate in voters
        && (a.term > s.now.term || (a.term == s.now.term && (s.now.vote == "" || s.now.vote == a.candidate)))
  {}

  /** A server asks for votes exactly if its own is on disk. */
  lemma StandMeans(s: Ballot, id: Id, works: bool)
    requires s.saved.term <= s.now.term
    ensures var (s1, solicits) := Stand(s, id, works); var m := Meta(s.now.term + 1, id);
      solicits == works && s1 == if works then Ballot(m, m, {}) else Ballot(m, s.saved, s.maybe + {m})
  {}

  /** A restart goes on from what the file holds, or votes for no one yet in the later term
      its log ends in; only if that cannot be saved it does not start. */
  lemma ReopenMeans(found: Meta, lastLogTerm: nat, works: bool)
    ensures var (s1, started) := Reopen(found, lastLogTerm, works);
      && (started <==> works || lastLogTerm <= found.term) && (started ==> s1.saved == s1.now)
      && s1.now == if lastLogTerm > found.term then Meta(lastLogTerm, "") else found
  {}

  /** A server that goes on from `m` votes for no one else in the term of a vote in `given`. */
  ghost predicate Remembers(m: Meta, given: set<Meta>) {
    forall v :: v in given ==> v.vote != "" && (v.term < m.term || v == m)
  }

  ghost predicate OncePerTerm(given: set<Meta>) {
    forall v, w :: v in given && w in given && v.term == w.term ==> v == w
  }

  /** Memory, and every content a restart may find, remember every vote given. */
  ghost predicate BallotOk(s: Ballot, given: set<Meta>) {
    && OncePerTerm(given) && Remembers(s.now, given) && Remembers(s.saved, given)
    && (forall m :: m in s.maybe ==> Remembers(m, given))
    && s.saved.term <= s.now.term
    && (s.saved.term == s.now.term && s.saved.vote != "" ==> s.now == s.saved && s.maybe == {})
  }

  /** The vote in memory may be given away once it is saved. */
  lemma GivenOk(s: Ballot, given: set<Meta>)
    requires BallotOk(s, given) && s.saved == s.now && s.now.vote != ""
    ensures BallotOk(s, given + {s.now})
  {
  }

  lemma SaveOk(s: Ballot, works: bool, given: set<Meta>)
    requires BallotOk(s, given)
    ensures BallotOk(Save(s, works).0, given)
  {
  }

  lemma AdoptOk(s: Ballot, term: nat, works: bool, given: set<Meta>)
    requires BallotOk(s, given) && term > s.now.term
    ensures BallotOk(Adopt(s, term, works), given) && Adopt(s, term, works).now == Meta(term, "")
  {
  }

  lemma VoteOk(s: Ballot, candidate: Id, upToDate: bool, works: bool, given: set<Meta>)
    requires BallotOk(s, given) && candidate != ""
    ensures var (s1, reply) := Vote(s, candidate, upToDate, works);
            && BallotOk(s1, given + if reply.granted then {Meta(s.now.term, candidate)} else {})
            && s1.now.term == s.now.term
  {
    var (s1, reply) := Vote(s, candidate, upToDate, works);
    if reply.granted {
      GivenOk(s1, given);
    } else {
      assert given + {} == given;
    }
  }

  lemma AnswerOk(s: Ballot, voters: set<Id>, a: VoteArgs, upToDate: bool, works: (bool, bool, bool), given: set<Meta>)
    requires BallotOk(s, given) && "" !in voters
    ensures var (s1, reply) := Answer(s, voters, a, upToDate, works);
            && BallotOk(s1, given + if reply.granted then {Meta(a.term, a.candidate)} else {})
            && s.now.term <= s1.now.term
  {
    if a.candidate !in voters || a.term < s.now.term {
      assert given + {} == given;
    } else if a.term == s.now.term {
      VoteOk(s, a.candidate, upToDate, works.2, given);
    } else {
      var s1 := Adopt(s, a.term, works.0);
      AdoptOk(s, a.term, works.0, given);
      SaveOk(s1, works.1, given);
      VoteOk(Save(s1, works.1).0, a.candidate, upToDate, works.2, given);
      assert given + {} == given;
    }
  }

  lemma StandOk(s: Ballot, id: Id, works: bool, given: set<Meta>)
    requires BallotOk(s, given) && id != ""
    ensures var (s1, solicits) := Stand(s, id, works);
            s1.now == Meta(s.now.term + 1, id) && BallotOk(s1, given + if solicits then {s1.now} else {})
  {
    var (s1, solicits) := Stand(s, id, works);
    if solicits {
      GivenOk(s1, given);
    } else {
      assert given + {} == given;
    }
  }

  lemma ReopenOk(s: Ballot, found: Meta, lastLogTerm: nat, works: bool, given: set<Meta>)
    requires BallotOk(s, given) && (found == s.saved || found in s.maybe)
    ensures BallotOk(Reopen(found, lastLogTerm, works).0, given)
  {
  }

  class Voter {
    const id: Id
    var currentTerm: nat
    var votedFor: Id
    var saved: Meta
    ghost var maybe: set<Meta>

    ghost function View(): Ballot
      reads this
    {
      Ballot(Meta(currentTerm, votedFor), saved, maybe)
    }

    constructor (id: Id)
      ensures this.id == id && View() == Ballot(Meta(0, ""), Meta(0, ""), {})
    {
      this.id := id;
      currentTerm, votedFor, saved, maybe := 0, "", Meta(0, ""), {};
    }

    method SaveMeta(works: bool) returns (ok: bool)
      modifies `saved, `maybe
      ensures (View(), ok) == Save(old(View()), works)
    {
      var m := Meta(currentTerm, votedFor);
      if saved == m { return true; }
      if !works {
        maybe := maybe + {m};
        return false;
      }
      saved, maybe := m, {};
      return true;
    }

    method BecomeFollower(term: nat, works: bool)
      modifies this
      ensures View() == Adopt(old(View()), term, works)
    {
      currentTerm, votedFor := term, "";
      var _ := SaveMeta(works);
    }

    method HandleRequestVote(voters: set<Id>, args: VoteArgs, upToDate: bool, works: (bool, bool, bool))
      returns (reply: VoteReply)
      modifies this
      ensures (View(), reply) == Answer(old(View()), voters, args, upToDate, works)
      ensures works == (true, true, true) ==>
        (reply.granted <==> && args.candidate in voters && args.term >= old(currentTerm) && upToDate
                            && (args.term > old(currentTerm) || old(votedFor) == "" || old(votedFor) == args.candidate))
      ensures reply.granted ==> saved == Meta(currentTerm, votedFor) == Meta(args.term, args.candidate)
    {
      reply := VoteReply(currentTerm, false);
      if args.candidate !in voters || args.term < currentTerm { return; }
      if args.term > currentTerm {
        BecomeFollower(args.term, works.0);
        var ok := SaveMeta(works.1);
        if !ok { return; }
      }
      if (votedFor == "" || votedFor == args.candidate) && upToDate {
        var prev := votedFor;
        votedFor := args.candidate;
        var ok := SaveMeta(works.2);
        if !ok {
          votedFor := prev;
        } else {
          reply := reply.(granted := true);
        }
      }
      reply := reply.(term := currentTerm);
    }

    method StartElection(works: bool) returns (solicits: bool)
      modifies this
      ensures (View(), solicits) == Stand(old(View()), id, works)
    {
      currentTerm, votedFor := currentTerm + 1, id;
      solicits := SaveMeta(works);
    }

    /** `found` is what the file turns out to hold. */
    method LoadState(found: Meta, lastLogTerm: nat, works: bool) returns (started: bool)
      requires found == saved || found in maybe
      modifies this
      ensures (View(), started) == Reopen(found, lastLogTerm, works)
    {
      saved, maybe := found, {};
      currentTerm, votedFor := found.term, found.vote;
      started := true;
      if lastLogTerm > currentTerm {
        currentTerm, votedFor := lastLogTerm, "";
        started := SaveMeta(works);
      }
    }
  }
}
