/** The event loop itself: every step of the loop thread and of the goroutines
    keeps each connection's answers in request order. */
module NetLoop {
  import opened Basics
  import opened Frames
  import opened Netfront

  const PUT_GROUP: nat := 256

  // ----- the steps, connection by connection

  /** Everything but connection `c` and its share is as before. */
  ghost predicate OthersKept(s: State, s': State, c: nat)
    requires Bounds(s) && Bounds(s')
  {
    && s'.conns.Keys == s.conns.Keys
    && forall d {:trigger ShareOf(s', d)} :: d in s.conns && d != c ==> s'.conns[d] == s.conns[d] && ShareOf(s', d) == ShareOf(s, d)
  }

  lemma StepOk(peek: Peeker, s: State, s': State, c: nat)
    requires Ok(peek, s) && Bounds(s') && OthersKept(s, s', c) && c in s.conns && ConnAt(peek, s', c)
    requires Known(s') && Adjacent(s'.batch, s'.at) && (!s'.executing ==> s'.at == 0 && s'.chains == map[])
    ensures Ok(peek, s')
  {
    forall d | d in s'.conns ensures ConnAt(peek, s', d) {
      if d != c { assert ConnAt(peek, s, d) && ShareOf(s', d) == ShareOf(s, d); }
    }
  }

  /** The goroutine of `c` posts its next answer. */
  function Posted(s: State, c: nat): State
    requires c in s.jobs && s.jobs[c] != []
  {
    s.(posted := s.posted + [s.jobs[c][0]], jobs := s.jobs[c := s.jobs[c][1..]])
  }

  lemma PostedOk(peek: Peeker, s: State, c: nat)
    requires Ok(peek, s) && c in s.jobs && s.jobs[c] != []
    ensures Ok(peek, Posted(s, c))
  {
    var s', r := Posted(s, c), s.jobs[c][0];
    forall d ensures Of(s'.posted, d, 0) == Of(s.posted, d, 0) + if d == c then [r] else [] { OfAppend(s.posted, r, d, 0); }
    assert ConnAt(peek, s, c);
    PostOk(s.conns[c], ShareOf(s, c));
    StepOk(peek, s, s', c);
  }

  /** The loop takes over what was posted. */
  function Swapped(s: State): State { s.(drained := s.posted, next := 0, posted := []) }

  lemma SwappedOk(peek: Peeker, s: State)
    requires Ok(peek, s) && s.next == |s.drained|
    ensures Ok(peek, Swapped(s))
  {
    var s' := Swapped(s);
    forall c | c in s'.conns ensures ConnAt(peek, s', c) {
      assert ConnAt(peek, s, c);
      SwapOk(s.conns[c], ShareOf(s, c));
      assert ShareOf(s', c) == ShareOf(s, c).(drained := ShareOf(s, c).posted, posted := []);
    }
  }

  function DrainedOne(s: State): State
    requires s.next < |s.drained| && s.drained[s.next].conn in s.conns && s.conns[s.drained[s.next].conn].outstanding > 0
  {
    var r := s.drained[s.next];
    s.(conns := s.conns[r.conn := Drained(s.conns[r.conn], r.no)], next := s.next + 1)
  }

  lemma DrainedShares(s: State, c: nat)
    requires Bounds(s) && s.next < |s.drained| && c == s.drained[s.next].conn && c in s.conns && s.conns[c].outstanding > 0
    ensures Bounds(DrainedOne(s)) && OthersKept(s, DrainedOne(s), c)
    ensures ShareOf(s, c).drained == [s.drained[s.next]] + Of(s.drained, c, s.next + 1)
    ensures ShareOf(DrainedOne(s), c) == ShareOf(s, c).(drained := Of(s.drained, c, s.next + 1))
  {}

  lemma DrainedKnown(s: State)
    requires Known(s) && s.next < |s.drained| && s.drained[s.next].conn in s.conns && s.conns[s.drained[s.next].conn].outstanding > 0
    ensures Known(DrainedOne(s))
  {}

  lemma DrainedOneOk(peek: Peeker, s: State)
    requires Ok(peek, s) && s.next < |s.drained|
    ensures var c := s.drained[s.next].conn;
      c in s.conns && s.conns[c].outstanding > 0 && Ok(peek, DrainedOne(s))
  {
    var c := s.drained[s.next].conn;
    assert ConnAt(peek, s, c);
    var h := ShareOf(s, c);
    DrainOk(s.conns[c], h);
    DrainedShares(s, c);
    DrainedKnown(s);
    assert h.drained[1..] == Of(s.drained, c, s.next + 1);
    StepOk(peek, s, DrainedOne(s), c);
  }

  /** The request under execution is answered on the loop's own thread. */
  function Inlined(s: State): State
    requires s.at < |s.batch| && s.batch[s.at].conn in s.conns && s.conns[s.batch[s.at].conn].outstanding > 0
  {
    var r := s.batch[s.at];
    var k := s.conns[r.conn];
    s.(conns := s.conns[r.conn := k.(answered := k.answered + [r.no], outstanding := k.outstanding - 1)], at := s.at + 1)
  }

  /** What `Ok` says about the request under execution. */
  lemma HeadOf(peek: Peeker, s: State)
    requires Ok(peek, s) && s.at < |s.batch|
    ensures var r := s.batch[s.at];
      && ConnAt(peek, s, r.conn) && s.conns[r.conn].outstanding > 0 && Away(ShareOf(s, r.conn)) == 0
      && ShareOf(s, r.conn).rest == [r] + Of(s.batch, r.conn, s.at + 1)
  {
    assert ConnAt(peek, s, s.batch[s.at].conn);
  }

  lemma InlinedOk(peek: Peeker, s: State)
    requires Ok(peek, s) && s.executing && s.at < |s.batch| && At(s.chains, s.batch[s.at].conn) == []
    ensures var c := s.batch[s.at].conn; c in s.conns && s.conns[c].outstanding > 0 && Ok(peek, Inlined(s))
  {
    HeadOf(peek, s);
    var c := s.batch[s.at].conn;
    InlineOk(s.conns[c], ShareOf(s, c));
    StepOk(peek, s, Inlined(s), c);
  }

  /** The request joins its connection's chain. */
  function ChainedOne(s: State): State
    requires s.at < |s.batch|
  {
    var r := s.batch[s.at];
    s.(chains := s.chains[r.conn := At(s.chains, r.conn) + [r]], at := s.at + 1)
  }

  lemma ChainedShares(s: State)
    requires Bounds(s) && s.at < |s.batch|
    ensures var c, r := s.batch[s.at].conn, s.batch[s.at];
      && OthersKept(s, ChainedOne(s), c)
      && ShareOf(ChainedOne(s), c) == ShareOf(s, c).(chain := ShareOf(s, c).chain + [r], rest := Of(s.batch, c, s.at + 1))
  {}

  lemma ChainedKnown(s: State)
    requires Known(s) && Bounds(s) && s.at < |s.batch|
    ensures Known(ChainedOne(s))
  {
    var c, r, s' := s.batch[s.at].conn, s.batch[s.at], ChainedOne(s);
    forall d | d in s'.chains ensures d in s.conns && forall i :: 0 <= i < |s'.chains[d]| ==> s'.chains[d][i].conn == d {
      if d == c {
        forall i | 0 <= i < |s'.chains[c]| ensures s'.chains[c][i].conn == c {
          if i < |At(s.chains, c)| { assert At(s.chains, c)[i].conn == c; }
        }
      }
    }
  }

  lemma ChainedOneOk(peek: Peeker, s: State)
    requires Ok(peek, s) && s.executing && s.at < |s.batch|
    ensures Ok(peek, ChainedOne(s))
  {
    HeadOf(peek, s);
    var c, h := s.batch[s.at].conn, ShareOf(s, s.batch[s.at].conn);
    ChainOk(s.conns[c], h);
    ChainedShares(s);
    ChainedKnown(s);
    assert h.rest[1..] == Of(s.batch, c, s.at + 1);
    StepOk(peek, s, ChainedOne(s), c);
  }

  /** A stretch of writes of one connection joins its chain, or gets a goroutine. */
  function Written(s: State, j: nat): State
    requires s.at < j <= |s.batch|
  {
    var c := s.batch[s.at].conn;
    if At(s.chains, c) != [] then s.(chains := s.chains[c := At(s.chains, c) + s.batch[s.at..j]], at := j)
    else s.(jobs := s.jobs[c := s.batch[s.at..j]], at := j)
  }

  lemma WrittenShares(s: State, j: nat)
    requires Bounds(s) && s.at < j <= |s.batch| && Of(s.batch, s.batch[s.at].conn, j) == []
    requires forall k :: s.at <= k < j ==> s.batch[k].conn == s.batch[s.at].conn
    ensures var s', c := Written(s, j), s.batch[s.at].conn;
      var h := ShareOf(s, c);
      && OthersKept(s, s', c) && h.rest == s.batch[s.at..j]
      && ShareOf(s', c) == (if h.chain != [] then h.(chain := h.chain + h.rest, rest := []) else h.(jobs := h.rest, rest := []))
  {
    var c, s' := s.batch[s.at].conn, Written(s, j);
    OfRun(s.batch, c, s.at, j);
    forall d | d in s.conns && d != c ensures ShareOf(s', d) == ShareOf(s, d) { OfSkip(s.batch, d, s.at, j); }
  }

  lemma WrittenOrder(k: Conn, h: Share)
    requires OrderOk(k, h) && h.rest != [] && IsWrite(h.rest[0].op)
    ensures OrderOk(k, if h.chain != [] then h.(chain := h.chain + h.rest, rest := []) else h.(jobs := h.rest, rest := []))
  {
    if h.chain != [] { ChainAllOk(k, h); } else { SpawnOk(k, h); }
  }

  lemma WrittenKnown(s: State, j: nat)
    requires Known(s) && s.at < j <= |s.batch| && forall k :: s.at <= k < j ==> s.batch[k].conn == s.batch[s.at].conn
    ensures Known(Written(s, j))
  {
    var run := s.batch[s.at..j];
    forall i | 0 <= i < |run| ensures run[i].conn == s.batch[s.at].conn { assert run[i] == s.batch[s.at + i]; }
  }

  lemma WrittenOk(peek: Peeker, s: State, j: nat)
    requires Ok(peek, s) && s.executing && s.at < j <= |s.batch| && IsWrite(s.batch[s.at].op)
    requires forall k :: s.at <= k < j ==> s.batch[k].conn == s.batch[s.at].conn
    requires Of(s.batch, s.batch[s.at].conn, j) == []
    ensures Ok(peek, Written(s, j))
  {
    var c, s' := s.batch[s.at].conn, Written(s, j);
    WrittenShares(s, j);
    WrittenKnown(s, j);
    assert ConnAt(peek, s, c);
    WrittenOrder(s.conns[c], ShareOf(s, c));
    StepOk(peek, s, s', c);
  }

  /** A chain is handed to a goroutine, its connection blocked first. */
  function Deferred(s: State, c: nat): State
    requires c in s.conns && c in s.chains
  {
    s.(conns := s.conns[c := s.conns[c].(blocked := true)], jobs := s.jobs[c := s.chains[c]], chains := s.chains - {c})
  }

  lemma DeferredShares(s: State, c: nat)
    requires Bounds(s) && s.at == |s.batch| && c in s.chains && c in s.conns
    ensures var h := ShareOf(s, c); ShareOf(Deferred(s, c), c) == h.(jobs := h.chain, chain := []) && h.rest == []
    ensures OthersKept(s, Deferred(s, c), c)
  {}

  lemma DeferredOk(peek: Peeker, s: State, c: nat)
    requires Ok(peek, s) && s.at == |s.batch| && c in s.chains && s.executing
    ensures c in s.conns && s.conns[c].outstanding > 0 && Ok(peek, Deferred(s, c))
  {
    assert ConnAt(peek, s, c);
    DeferredShares(s, c);
    DeferOk(s.conns[c], ShareOf(s, c));
    StepOk(peek, s, Deferred(s, c), c);
  }

  function Received(s: State, c: nat, bytes: seq<Byte>): State
    requires c in s.conns
  {
    s.(conns := s.conns[c := s.conns[c].(input := s.conns[c].input + bytes, stream := s.conns[c].stream + bytes)])
  }

  lemma ReceivedOk(peek: Peeker, s: State, c: nat, bytes: seq<Byte>)
    requires Steady(peek) && Ok(peek, s) && c in s.conns
    ensures Ok(peek, Received(s, c, bytes))
  {
    assert ConnAt(peek, s, c);
    ReceiveCut(peek, s.conns[c], bytes);
    assert InOrder(Received(s, c, bytes).conns[c], ShareOf(s, c));
    StepOk(peek, s, Received(s, c, bytes), c);
  }

  // ----- parsing

  /** The batch ends in `puts` PUTs of connection `c` and has no other write of it. */
  ghost predicate EndsInPuts(batch: seq<Req>, c: nat, puts: nat) {
    && puts <= |batch|
    && (forall p :: |batch| - puts <= p < |batch| ==> batch[p].conn == c && batch[p].op == Put)
    && (forall p :: 0 <= p < |batch| - puts && batch[p].conn == c ==> !IsWrite(batch[p].op))
  }

  /** In the middle of parsing connection `c`, now `k`. */
  ghost predicate Mid(peek: Peeker, s: State, c: nat, k: Conn, puts: nat) {
    && Bounds(s) && Known(s) && Adjacent(s.batch, s.at) && !s.executing && s.at == 0 && s.chains == map[] && c in s.conns
    && OtherConns(peek, s, c)
    && Parsing(k, ShareOf(s, c), puts) && Cut(peek, k) && EndsInPuts(s.batch, c, puts)
  }

  lemma {:induction false} OfMembers(s: seq<Req>, c: nat, i: nat, p: nat)
    requires i <= p < |s| && s[p].conn == c
    ensures s[p] in Of(s, c, i)
    decreases |s| - i
  {
    if i < p { OfMembers(s, c, i + 1, p); }
  }

  lemma MidBegin(peek: Peeker, s: State, c: nat)
    requires Ok(peek, s) && !s.executing && c in s.conns && !s.conns[c].blocked && !s.conns[c].closing
    ensures Mid(peek, s, c, s.conns[c], 0)
  {
    assert ConnAt(peek, s, c);
    var h := ShareOf(s, c);
    ParseBegin(s.conns[c], h);
    forall p | 0 <= p < |s.batch| && s.batch[p].conn == c ensures !IsWrite(s.batch[p].op) { OfMembers(s.batch, c, 0, p); }
  }

  lemma JoinedPush(batch: seq<Req>, r: Req, puts: nat)
    requires Adjacent(batch, 0) && EndsInPuts(batch, r.conn, puts)
    ensures Adjacent(batch + [r], 0)
  {
    var next := batch + [r];
    forall p, q | 0 <= p <= q < |next| ensures Joined(next, p, q) {
      if q < |batch| { assert Joined(batch, p, q); }
    }
  }

  lemma PutsPush(batch: seq<Req>, r: Req, puts: nat)
    requires EndsInPuts(batch, r.conn, puts) && (puts > 0 ==> r.op == Put)
    ensures r.op == Put ==> EndsInPuts(batch + [r], r.conn, puts + 1)
    ensures !IsWrite(r.op) ==> EndsInPuts(batch + [r], r.conn, 0)
  {}

  lemma PushShares(s: State, r: Req)
    requires Bounds(s)
    ensures var s' := s.(batch := s.batch + [r]);
      && (forall d {:trigger ShareOf(s', d)} :: d != r.conn ==> ShareOf(s', d) == ShareOf(s, d))
      && ShareOf(s', r.conn) == ShareOf(s, r.conn).(rest := ShareOf(s, r.conn).rest + [r])
  {
    var s' := s.(batch := s.batch + [r]);
    forall d ensures Of(s'.batch, d, s.at) == Of(s.batch, d, s.at) + if r.conn == d then [r] else [] {
      OfAppend(s.batch, r, d, s.at);
    }
  }

  ghost predicate OtherConns(peek: Peeker, s: State, c: nat)
    requires Bounds(s)
  {
    forall d {:trigger ConnAt(peek, s, d)} :: d in s.conns && d != c ==> ConnAt(peek, s, d)
  }

  lemma PushOthers(peek: Peeker, s: State, r: Req)
    requires Bounds(s) && OtherConns(peek, s, r.conn)
    ensures OtherConns(peek, s.(batch := s.batch + [r]), r.conn)
  {
    var s' := s.(batch := s.batch + [r]);
    PushShares(s, r);
    forall d | d in s'.conns && d != r.conn ensures ConnAt(peek, s', d) {
      assert ConnAt(peek, s, d) && ShareOf(s', d) == ShareOf(s, d);
    }
  }

  /** A read, or another PUT of the group. */
  lemma MidPush(peek: Peeker, s: State, c: nat, k: Conn, puts: nat, op: Op, size: nat)
    requires Sized(peek) && Mid(peek, s, c, k, puts) && (op == Put || (puts == 0 && !IsWrite(op)))
    requires peek(k.input[k.pos..]) == Complete(op, size)
    ensures Mid(peek, s.(batch := s.batch + [Req(c, k.asked, op)]), c, Parsed(k, size), if op == Put then puts + 1 else 0)
  {
    var r := Req(c, k.asked, op);
    PushOthers(peek, s, r);
    JoinedPush(s.batch, r, puts);
    PutsPush(s.batch, r, puts);
    PushConn(peek, s, c, k, puts, r, size);
  }

  lemma PushConn(peek: Peeker, s: State, c: nat, k: Conn, puts: nat, r: Req, size: nat)
    requires Sized(peek) && Bounds(s) && Parsing(k, ShareOf(s, c), puts) && Cut(peek, k)
    requires r == Req(c, k.asked, r.op) && (r.op == Put || (puts == 0 && !IsWrite(r.op)))
    requires peek(k.input[k.pos..]) == Complete(r.op, size)
    ensures Cut(peek, Parsed(k, size))
    ensures Parsing(Parsed(k, size), ShareOf(s.(batch := s.batch + [r]), c), if r.op == Put then puts + 1 else 0)
  {
    PushShares(s, r);
    ParseCut(peek, k);
    ParseOne(k, ShareOf(s, c), puts, r, size);
  }

  /** Any other write: the connection is blocked behind it. */
  lemma BlockPush(peek: Peeker, s: State, c: nat, k: Conn, op: Op, size: nat)
    requires Sized(peek) && Mid(peek, s, c, k, 0) && IsWrite(op) && op != Put
    requires peek(k.input[k.pos..]) == Complete(op, size)
    ensures Ok(peek, s.(batch := s.batch + [Req(c, k.asked, op)], conns := s.conns[c := Parsed(k, size).(blocked := true)]))
  {
    var r := Req(c, k.asked, op);
    var s', k' := s.(batch := s.batch + [r]), Parsed(k, size).(blocked := true);
    BlockConn(peek, s, c, k, r, size);
    PushOthers(peek, s, r);
    JoinedPush(s.batch, r, 0);
    PlaceOk(peek, s', s'.(conns := s.conns[c := k']), c, k');
  }

  lemma BlockConn(peek: Peeker, s: State, c: nat, k: Conn, r: Req, size: nat)
    requires Sized(peek) && Bounds(s) && Parsing(k, ShareOf(s, c), 0) && Cut(peek, k) && IsWrite(r.op) && r.op != Put
    requires r == Req(c, k.asked, r.op) && peek(k.input[k.pos..]) == Complete(r.op, size)
    ensures var k' := Parsed(k, size).(blocked := true);
      OrderOk(k', ShareOf(s.(batch := s.batch + [r]), c)) && Cut(peek, k')
  {
    PushShares(s, r);
    BlockCut(peek, k, size);
    ParseOne(k, ShareOf(s, c), 0, r, size);
  }

  lemma BlockCut(peek: Peeker, k: Conn, size: nat)
    requires Sized(peek) && Cut(peek, k) && peek(k.input[k.pos..]).Complete? && size == peek(k.input[k.pos..]).size
    ensures Cut(peek, Parsed(k, size).(blocked := true))
  {
    ParseCut(peek, k);
  }

  /** The parsed connection put back. */
  lemma PlaceOk(peek: Peeker, s: State, s': State, c: nat, k: Conn)
    requires Bounds(s) && Known(s) && Adjacent(s.batch, s.at) && !s.executing && s.at == 0 && s.chains == map[] && c in s.conns
    requires OtherConns(peek, s, c)
    requires OrderOk(k, ShareOf(s, c)) && Cut(peek, k) && s' == s.(conns := s.conns[c := k])
    ensures Ok(peek, s')
  {
    forall d | d in s'.conns ensures ConnAt(peek, s', d) {
      assert ShareOf(s', d) == ShareOf(s, d);
      if d != c { assert ConnAt(peek, s, d); }
    }
  }

  lemma MidEnd(peek: Peeker, s: State, c: nat, k: Conn, puts: nat, k': Conn)
    requires Mid(peek, s, c, k, puts) && k' == k.(blocked := k'.blocked, closing := k'.closing, refusal := k'.refusal)
    requires puts > 0 ==> k'.blocked || k'.closing
    ensures Ok(peek, s.(conns := s.conns[c := k']))
  {
    ParseEnd(k', ShareOf(s, c), puts);
    PlaceOk(peek, s, s.(conns := s.conns[c := k']), c, k');
  }

  /** A new connection, and the end of a batch. */
  const FRESH: Conn := Conn([], 0, [], 0, false, false, [], 0, NoRefusal)

  lemma FreshOk(peek: Peeker)
    ensures OrderOk(FRESH, Share([], [], [], [], [])) && Cut(peek, FRESH)
  {}

  lemma NoShare(s: State, c: nat)
    requires Bounds(s) && Known(s) && c !in s.conns
    ensures ShareOf(s, c) == Share([], [], [], [], [])
  {
    OfNone(s.batch, c, s.at);
    OfNone(s.posted, c, 0);
    OfNone(s.drained, c, s.next);
  }

  lemma AcceptedConns(peek: Peeker, s: State, s': State, c: nat, k: Conn)
    requires Ok(peek, s) && c !in s.conns && s' == s.(conns := s.conns[c := k])
    requires OrderOk(k, ShareOf(s, c)) && Cut(peek, k)
    ensures forall d {:trigger ConnAt(peek, s', d)} :: d in s'.conns ==> ConnAt(peek, s', d)
  {
    forall d | d in s'.conns ensures ConnAt(peek, s', d) {
      assert ShareOf(s', d) == ShareOf(s, d);
      if d != c { assert ConnAt(peek, s, d); }
    }
  }

  lemma AcceptedKnown(s: State, c: nat, k: Conn)
    requires Known(s)
    ensures Known(s.(conns := s.conns[c := k]))
  {}

  lemma AcceptedOk(peek: Peeker, s: State, c: nat, k: Conn)
    requires Ok(peek, s) && c !in s.conns && k == FRESH
    ensures Ok(peek, s.(conns := s.conns[c := k]))
  {
    FreshOk(peek);
    NoShare(s, c);
    AcceptedConns(peek, s, s.(conns := s.conns[c := k]), c, k);
    AcceptedKnown(s, c, k);
  }

  lemma ExecutedOk(peek: Peeker, s: State)
    requires Ok(peek, s) && s.at == |s.batch| && s.chains == map[]
    ensures Ok(peek, s.(batch := [], at := 0, executing := false))
  {
    var s' := s.(batch := [], at := 0, executing := false);
    forall d | d in s'.conns ensures ConnAt(peek, s', d) {
      assert ConnAt(peek, s, d) && ShareOf(s', d) == ShareOf(s, d);
    }
  }

  /** Behind a PUT its connection has only PUTs. */
  lemma PutFollows(peek: Peeker, s: State, j: nat)
    requires Ok(peek, s) && s.at < j < |s.batch| && s.batch[s.at].op == Put
    requires forall k :: s.at <= k <= j ==> s.batch[k].conn == s.batch[s.at].conn
    ensures s.batch[j].op == Put
  {
    var c := s.batch[s.at].conn;
    assert ConnAt(peek, s, c);
    var rest := ShareOf(s, c).rest;
    OfRun(s.batch, c, s.at, j + 1);
    assert rest[0] == s.batch[s.at] && rest[j - s.at] == s.batch[j];
  }

  /** A run of PUTs that was cut where the next request is not one of its
      connection's PUTs took all the requests of that connection. */
  lemma GroupIsAll(peek: Peeker, s: State, j: nat)
    requires Ok(peek, s) && s.at < j <= |s.batch| && s.batch[s.at].op == Put
    requires forall k :: s.at <= k < j ==> s.batch[k].conn == s.batch[s.at].conn
    requires j < |s.batch| ==> s.batch[j].op != Put || s.batch[j].conn != s.batch[s.at].conn
    ensures Of(s.batch, s.batch[s.at].conn, j) == []
  {
    var c := s.batch[s.at].conn;
    if j < |s.batch| && s.batch[j].conn == c { PutFollows(peek, s, j); }
    forall q | j <= q < |s.batch| ensures s.batch[q].conn != c { assert Joined(s.batch, s.at, q); }
    OfNone(s.batch, c, j);
  }

  lemma LoneWrite(rest: seq<Req>)
    requires rest != [] && WritesLast(rest) && IsWrite(rest[0].op) && rest[0].op != Put
    ensures |rest| == 1
  {
    var last := rest[|rest| - 1];
  }

  lemma WriteIsLast(peek: Peeker, s: State)
    requires Ok(peek, s) && s.at < |s.batch| && IsWrite(s.batch[s.at].op) && s.batch[s.at].op != Put
    ensures Of(s.batch, s.batch[s.at].conn, s.at + 1) == []
  {
    HeadOf(peek, s);
    LoneWrite(ShareOf(s, s.batch[s.at].conn).rest);
  }

  /** Only connection `c` changed, and its share did not. */
  lemma ConnOk(peek: Peeker, s: State, c: nat, k: Conn)
    requires Ok(peek, s) && c in s.conns && OrderOk(k, ShareOf(s, c)) && Cut(peek, k)
    ensures Ok(peek, s.(conns := s.conns[c := k]))
  {
    StepOk(peek, s, s.(conns := s.conns[c := k]), c);
  }

  lemma UnblockedOk(peek: Peeker, s: State, c: nat)
    requires Ok(peek, s) && c in s.conns && s.conns[c].outstanding == 0
    ensures Ok(peek, s.(conns := s.conns[c := s.conns[c].(blocked := false)]))
  {
    assert ConnAt(peek, s, c);
    ConnOk(peek, s, c, s.conns[c].(blocked := false));
  }

  lemma CompactedOk(peek: Peeker, s: State, c: nat)
    requires Ok(peek, s) && c in s.conns
    ensures s.conns[c].pos <= |s.conns[c].input|
    ensures Ok(peek, s.(conns := s.conns[c := s.conns[c].(input := s.conns[c].input[s.conns[c].pos..], pos := 0)]))
  {
    assert ConnAt(peek, s, c);
    var k := s.conns[c].(input := s.conns[c].input[s.conns[c].pos..], pos := 0);
    assert k.input[k.pos..] == s.conns[c].input[s.conns[c].pos..];
    ConnOk(peek, s, c, k);
  }

  /** A queued error is appended behind the answers given so far. */
  function Replied(k: Conn): Conn { if k.refusal == Queued then k.(refusal := Said(|k.answered|)) else k }

  lemma ReplyOk(peek: Peeker, s: State, c: nat)
    requires Ok(peek, s) && c in s.conns
    ensures Ok(peek, s.(conns := s.conns[c := Replied(s.conns[c])]))
  {
    assert ConnAt(peek, s, c);
    ConnOk(peek, s, c, Replied(s.conns[c]));
  }

  /** The error comes behind the answers to all requests before it exactly if none of
      them is outstanding when it is appended. */
  lemma RefusalInOrder(peek: Peeker, s: State, c: nat)
    requires Ok(peek, s) && c in s.conns && s.conns[c].refusal == Queued
    ensures Replied(s.conns[c]).refusal == Said(s.conns[c].asked) <==> s.conns[c].outstanding == 0
  {
    AnswersInOrder(peek, s, c);
  }

  // ----- the loop object

  /** Connection `k0` has become `k` by parsing what `batch` has more than `batch0`. */
  ghost predicate ParsedFrom(k0: Conn, k: Conn, batch0: seq<Req>, batch: seq<Req>) {
    && batch0 <= batch && k.answered == k0.answered && k.stream == k0.stream && k.input == k0.input
    && k.asked == k0.asked + |batch| - |batch0|
  }

  function Fed(k: Conn, bytes: seq<Byte>): Conn { k.(input := k.input + bytes, stream := k.stream + bytes) }

  /** A write other than PUT is the last request parsed for now. */
  predicate LastOf(op: Op) { op != Put && IsWrite(op) }

  function PutsAfter(op: Op, puts: nat): nat { if op == Put then puts + 1 else 0 }

  /** The connection behind a frame. */
  function Framed(k: Conn, op: Op, size: nat): Conn { if LastOf(op) then Parsed(k, size).(blocked := true) else Parsed(k, size) }

  /** What parsing makes of a connection and the batch, with `puts` PUTs just queued. */
  ghost function ParseOn(peek: Peeker, c: nat, k: Conn, batch: seq<Req>, puts: nat): (Conn, seq<Req>)
    requires Sized(peek) && k.pos <= |k.input|
    decreases |k.input| - k.pos
  {
    var b := k.input[k.pos..];
    var look := peek(b);
    if GroupEnds(b, puts) || !look.Complete? then (Halted(k, puts, !GroupEnds(b, puts) && look.Refused?), batch)
    else
      var k', batch' := Framed(k, look.op, look.size), batch + [Req(c, k.asked, look.op)];
      if LastOf(look.op) then (k', batch') else ParseOn(peek, c, k', batch', PutsAfter(look.op, puts))
  }

  /** One turn of the parser. */
  ghost predicate Turn(peek: Peeker, c: nat, k: Conn, puts: nat, batch: seq<Req>, k': Conn, puts': nat, batch': seq<Req>, stop: bool)
    requires Sized(peek) && k.pos <= |k.input|
  {
    && ParsedFrom(k, k', batch, batch') && k.pos <= k'.pos <= |k.input| && (stop || k.pos < k'.pos)
    && (stop ==> SettledAt(peek, k'))
    && ParseOn(peek, c, k, batch, puts) == if stop then (k', batch') else ParseOn(peek, c, k', batch', puts')
  }

  /** No complete frame is left, or nothing may be parsed. */
  ghost predicate SettledAt(peek: Peeker, k: Conn) {
    k.pos <= |k.input| && (k.blocked || k.closing || peek(k.input[k.pos..]).Incomplete?)
  }

  lemma FrameTurn(peek: Peeker, c: nat, k: Conn, puts: nat, batch: seq<Req>)
    requires Sized(peek) && k.pos <= |k.input| && peek(k.input[k.pos..]).Complete? && !GroupEnds(k.input[k.pos..], puts)
    ensures var look := peek(k.input[k.pos..]);
      Turn(peek, c, k, puts, batch, Framed(k, look.op, look.size), PutsAfter(look.op, puts), batch + [Req(c, k.asked, look.op)], LastOf(look.op))
  {}

  lemma StopTurn(peek: Peeker, c: nat, k: Conn, puts: nat, batch: seq<Req>)
    requires Sized(peek) && k.pos <= |k.input| && (GroupEnds(k.input[k.pos..], puts) || !peek(k.input[k.pos..]).Complete?)
    ensures Turn(peek, c, k, puts, batch, Halted(k, puts, !GroupEnds(k.input[k.pos..], puts) && peek(k.input[k.pos..]).Refused?), puts, batch, true)
  {}

  /** The next frame, whose header is there, does not belong to the group of PUTs. */
  predicate GroupEnds(b: seq<Byte>, puts: nat) {
    |b| >= 7 && 1 <= b[0] as nat <= MAX_CMD && puts > 0 && (b[0] != 1 || puts >= PUT_GROUP)
  }

  /** Parsing stops: at a frame that is refused, behind PUTs, or for want of input. */
  function Halted(k: Conn, puts: nat, refused: bool): Conn {
    if refused then k.(closing := true, refusal := Queued) else if puts > 0 then k.(blocked := true) else k
  }

  // ----- what one call of the parser does

  ghost function CountPuts(rs: seq<Req>): nat {
    if rs == [] then 0 else CountPuts(rs[1..]) + if rs[0].op == Put then 1 else 0
  }

  /** `r` is request number `n` of the stream of connection `c`. */
  ghost function RequestOf(peek: Peeker, stream: seq<Byte>, c: nat): (nat, Req) -> bool {
    (n: nat, r: Req) => r.conn == c && r.no == n && End(peek, stream, n + 1).Some? && OpAt(peek, stream, n) == r.op
  }

  /** Each of `rs` is `good`, numbered from `lo` on. */
  ghost predicate AllFrom(good: (nat, Req) -> bool, lo: nat, rs: seq<Req>) { forall i :: 0 <= i < |rs| ==> good(lo + i, rs[i]) }

  lemma AllFromMore(good: (nat, Req) -> bool, lo: nat, next: nat, r: Req, rs: seq<Req>)
    requires next == lo + 1 && good(lo, r) && AllFrom(good, next, rs)
    ensures AllFrom(good, lo, [r] + rs)
  {
    var all := [r] + rs;
    forall i | 0 <= i < |all| ensures good(lo + i, all[i]) {
      if i > 0 { assert all[i] == rs[i - 1] && good(next + (i - 1), rs[i - 1]); }
    }
  }

  /** Reads, then at most one write or group of PUTs, the group of at most 256 with the
      `puts` queued before. */
  ghost predicate Shaped(rs: seq<Req>, puts: nat) {
    && (forall i :: 0 <= i < |rs| - 1 && IsWrite(rs[i].op) ==> rs[i].op == Put && rs[i + 1].op == Put)
    && (puts > 0 ==> forall i :: 0 <= i < |rs| ==> rs[i].op == Put)
    && puts + CountPuts(rs) <= 256
  }

  /** Why parsing stopped: closing, because the next frame is refused; blocked, by a write or
      a group of PUTs that the next frame does not join; else, for want of a complete frame. */
  ghost predicate Stops(peek: Peeker, k: Conn, rs: seq<Req>, puts: nat)
    requires k.pos <= |k.input|
  {
    var b, lone := k.input[k.pos..], rs != [] && LastOf(rs[|rs| - 1].op);
    && (k.closing ==> peek(b).Refused? && !lone && k.refusal == Queued)
    && (lone ==> k.blocked)
    && (k.blocked && !lone ==>
          && puts + CountPuts(rs) > 0
          && (peek(b).Incomplete? || (|b| >= 7 && (b[0] != 1 || puts + CountPuts(rs) == 256))))
    && (!k.blocked && !k.closing ==> peek(b).Incomplete? && puts + CountPuts(rs) == 0)
  }

  /** The requests one call of the parser takes. */
  ghost function Taken(peek: Peeker, c: nat, k: Conn, puts: nat): seq<Req>
    requires Sized(peek) && k.pos <= |k.input|
    decreases |k.input| - k.pos
  {
    var look := peek(k.input[k.pos..]);
    if GroupEnds(k.input[k.pos..], puts) || !look.Complete? then []
    else if LastOf(look.op) then [Req(c, k.asked, look.op)]
    else [Req(c, k.asked, look.op)] + Taken(peek, c, Parsed(k, look.size), PutsAfter(look.op, puts))
  }

  lemma {:induction false} ParseTakes(peek: Peeker, c: nat, k: Conn, batch: seq<Req>, puts: nat)
    requires Sized(peek) && k.pos <= |k.input|
    ensures ParseOn(peek, c, k, batch, puts).1 == batch + Taken(peek, c, k, puts)
    decreases |k.input| - k.pos
  {
    var look := peek(k.input[k.pos..]);
    if !GroupEnds(k.input[k.pos..], puts) && look.Complete? && !LastOf(look.op) {
      ParseTakes(peek, c, Parsed(k, look.size), batch + [Req(c, k.asked, look.op)], PutsAfter(look.op, puts));
    }
  }

  lemma TakenNext(peek: Peeker, c: nat, k: Conn, puts: nat, r: Req, k1: Conn)
    requires Sized(peek) && k.pos <= |k.input| && peek(k.input[k.pos..]).Complete? && !GroupEnds(k.input[k.pos..], puts)
    requires r == Req(c, k.asked, peek(k.input[k.pos..]).op) && !LastOf(r.op) && k1 == Parsed(k, peek(k.input[k.pos..]).size)
    ensures k1.pos <= |k1.input| && Taken(peek, c, k, puts) == [r] + Taken(peek, c, k1, PutsAfter(r.op, puts))
  {}

  lemma TakenNow(peek: Peeker, c: nat, k: Conn, puts: nat, rs: seq<Req>)
    requires Sized(peek) && k.pos <= |k.input|
    requires var look := peek(k.input[k.pos..]);
      if GroupEnds(k.input[k.pos..], puts) || !look.Complete? then rs == [] else LastOf(look.op) && rs == [Req(c, k.asked, look.op)]
    ensures Taken(peek, c, k, puts) == rs
  {}

  /** From a connection where `at` holds, the next request is good and `at` holds behind it. */
  ghost predicate NextGood(peek: Peeker, c: nat, at: Conn -> bool, good: (nat, Req) -> bool, k: Conn) {
    at(k) && k.pos <= |k.input| && peek(k.input[k.pos..]).Complete? ==>
      var look := peek(k.input[k.pos..]); at(Parsed(k, look.size)) && good(k.asked, Req(c, k.asked, look.op))
  }

  lemma AllFromOne(good: (nat, Req) -> bool, lo: nat, r: Req)
    requires good(lo, r)
    ensures AllFrom(good, lo, [r])
  {}

  /** Then all requests of a parse are good. */
  lemma {:induction false} TakenAll(peek: Peeker, c: nat, k: Conn, puts: nat, at: Conn -> bool, good: (nat, Req) -> bool, rs: seq<Req>)
    requires Sized(peek) && k.pos <= |k.input| && rs == Taken(peek, c, k, puts) && at(k)
    requires forall k :: NextGood(peek, c, at, good, k)
    ensures AllFrom(good, k.asked, rs)
    decreases |k.input| - k.pos
  {
    var look := peek(k.input[k.pos..]);
    if GroupEnds(k.input[k.pos..], puts) || !look.Complete? {
      TakenNow(peek, c, k, puts, []);
    } else {
      var r, k1, n := Req(c, k.asked, look.op), Parsed(k, look.size), PutsAfter(look.op, puts);
      assert NextGood(peek, c, at, good, k);
      if LastOf(look.op) {
        TakenNow(peek, c, k, puts, [r]);
        AllFromOne(good, k.asked, r);
      } else {
        TakenNext(peek, c, k, puts, r, k1);
        var rest := Taken(peek, c, k1, n);
        TakenAll(peek, c, k1, n, at, good, rest);
        AllFromMore(good, k.asked, k1.asked, r, rest);
      }
    }
  }

  ghost function AtFrame(peek: Peeker, stream: seq<Byte>): Conn -> bool { k => Cut(peek, k) && k.stream == stream }

  lemma NextIsReq(peek: Peeker, stream: seq<Byte>, c: nat, k: Conn)
    requires Sized(peek) && AtFrame(peek, stream)(k) && k.pos <= |k.input| && peek(k.input[k.pos..]).Complete?
    ensures var look := peek(k.input[k.pos..]);
      AtFrame(peek, stream)(Parsed(k, look.size)) && RequestOf(peek, stream, c)(k.asked, Req(c, k.asked, look.op))
  {
    ParseCut(peek, k);
  }

  /** They are the next requests of the stream, with their commands. */
  lemma TakenInOrder(peek: Peeker, c: nat, k: Conn, puts: nat, rs: seq<Req>)
    requires Sized(peek) && Cut(peek, k) && rs == Taken(peek, c, k, puts)
    ensures AllFrom(RequestOf(peek, k.stream, c), k.asked, rs)
  {
    var at, good := AtFrame(peek, k.stream), RequestOf(peek, k.stream, c);
    forall x ensures NextGood(peek, c, at, good, x) {
      if at(x) && x.pos <= |x.input| && peek(x.input[x.pos..]).Complete? { NextIsReq(peek, k.stream, c, x); }
    }
    TakenAll(peek, c, k, puts, at, good, rs);
  }

  /** A frame that does not end a group of PUTs is one of them. */
  lemma JoinsGroup(peek: Peeker, b: seq<Byte>, puts: nat)
    requires Headed(peek) && peek(b).Complete? && !GroupEnds(b, puts)
    ensures puts > 0 ==> peek(b).op == Put && puts < 256
  {}

  lemma MoreCounted(r: Req, rs: seq<Req>, all: seq<Req>)
    requires all == [r] + rs
    ensures CountPuts(all) == CountPuts(rs) + (if r.op == Put then 1 else 0) && all[|all| - 1] == if rs == [] then r else rs[|rs| - 1]
  {
    assert all[1..] == rs;
  }

  lemma MoreShaped(r: Req, rs: seq<Req>, all: seq<Req>, puts: nat)
    requires Shaped(rs, PutsAfter(r.op, puts)) && !LastOf(r.op) && (puts > 0 ==> r.op == Put) && all == [r] + rs
    ensures Shaped(all, puts)
  {
    MoreCounted(r, rs, all);
    forall i | 0 <= i < |all| - 1 && IsWrite(all[i].op) ensures all[i].op == Put && all[i + 1].op == Put {
      if i > 0 { assert all[i] == rs[i - 1] && all[i + 1] == rs[i]; } else { assert all[1] == rs[0]; }
    }
    forall i | puts > 0 && 0 <= i < |all| ensures all[i].op == Put { if i > 0 { assert all[i] == rs[i - 1]; } }
  }

  /** Reads, then one write or one group of PUTs. */
  lemma {:induction false} TakenShaped(peek: Peeker, c: nat, k: Conn, puts: nat)
    requires Sized(peek) && Headed(peek) && k.pos <= |k.input| && puts <= 256
    ensures Shaped(Taken(peek, c, k, puts), puts)
    decreases |k.input| - k.pos
  {
    var look := peek(k.input[k.pos..]);
    if !GroupEnds(k.input[k.pos..], puts) && look.Complete? {
      JoinsGroup(peek, k.input[k.pos..], puts);
      var r := Req(c, k.asked, look.op);
      if LastOf(look.op) {
        MoreCounted(r, [], [r]);
      } else {
        TakenShaped(peek, c, Parsed(k, look.size), PutsAfter(look.op, puts));
        MoreShaped(r, Taken(peek, c, Parsed(k, look.size), PutsAfter(look.op, puts)), Taken(peek, c, k, puts), puts);
      }
    }
  }

  lemma MoreStops(peek: Peeker, k: Conn, r: Req, rs: seq<Req>, all: seq<Req>, puts: nat)
    requires k.pos <= |k.input| && Stops(peek, k, rs, PutsAfter(r.op, puts)) && !LastOf(r.op) && (puts > 0 ==> r.op == Put) && all == [r] + rs
    ensures Stops(peek, k, all, puts)
  {
    MoreCounted(r, rs, all);
  }

  lemma HaltStops(peek: Peeker, k: Conn, puts: nat, k': Conn)
    requires k.pos <= |k.input| && !k.blocked && !k.closing && puts <= 256
    requires GroupEnds(k.input[k.pos..], puts) || !peek(k.input[k.pos..]).Complete?
    requires k' == Halted(k, puts, !GroupEnds(k.input[k.pos..], puts) && peek(k.input[k.pos..]).Refused?)
    ensures Stops(peek, k', [], puts)
  {}

  /** It stops only for a reason. */
  lemma {:induction false} TakenStops(peek: Peeker, c: nat, k: Conn, batch: seq<Req>, puts: nat, k': Conn)
    requires Sized(peek) && Headed(peek) && k.pos <= |k.input| && puts <= 256 && !k.blocked && !k.closing
    requires ParseOn(peek, c, k, batch, puts).0 == k'
    ensures k'.pos <= |k'.input| && Stops(peek, k', Taken(peek, c, k, puts), puts)
    decreases |k.input| - k.pos
  {
    var look := peek(k.input[k.pos..]);
    if GroupEnds(k.input[k.pos..], puts) || !look.Complete? {
      HaltStops(peek, k, puts, k');
    } else {
      JoinsGroup(peek, k.input[k.pos..], puts);
      if !LastOf(look.op) {
        var r, k1, n := Req(c, k.asked, look.op), Parsed(k, look.size), PutsAfter(look.op, puts);
        TakenStops(peek, c, k1, batch + [r], n, k');
        MoreStops(peek, k', r, Taken(peek, c, k1, n), Taken(peek, c, k, puts), puts);
      }
    }
  }

  /** A blocked connection with nothing outstanding is free again, and its input is parsed on;
      any other stays as it is. */
  ghost predicate GoesOn(peek: Peeker, c: nat, k: Conn, batch: seq<Req>, k': Conn, batch': seq<Req>)
    requires Sized(peek) && k.pos <= |k.input|
  {
    if k.blocked && k.outstanding == 0 && !k.closing then (k', batch') == ParseOn(peek, c, k.(blocked := false), batch, 0)
    else k' == k.(blocked := k.blocked && k.outstanding > 0) && batch' == batch
  }

  /** After that, parsed input is dropped from the buffer, unless requests still point into it
      or the connection is closing. */
  ghost predicate Settles(peek: Peeker, c: nat, k: Conn, batch: seq<Req>, k': Conn, batch': seq<Req>)
    requires Sized(peek) && k.pos <= |k.input|
  {
    exists k1 ::
      && GoesOn(peek, c, k, batch, k1, batch') && k1.pos <= |k1.input|
      && k' == if |batch'| != |batch| || k1.closing then k1 else k1.(input := k1.input[k1.pos..], pos := 0)
  }

  /** An answer is handed over, and if it was the last one owed its connection goes on. */
  ghost predicate Resumes(peek: Peeker, conns: map<nat, Conn>, batch: seq<Req>, r: Req, conns': map<nat, Conn>, batch': seq<Req>)
    requires Sized(peek)
  {
    && r.conn in conns && r.conn in conns' && conns[r.conn].outstanding > 0 && conns[r.conn].pos <= |conns[r.conn].input|
    && var k := conns[r.conn];
       GoesOn(peek, r.conn, k.(answered := k.answered + [r.no], outstanding := k.outstanding - 1), batch, conns'[r.conn], batch')
  }

  lemma PosInside(peek: Peeker, s: State, c: nat)
    requires Ok(peek, s) && c in s.conns
    ensures s.conns[c].pos <= |s.conns[c].input|
  {
    assert ConnAt(peek, s, c);
  }

  class Loop {
    const peek: Peeker
    var conns: map<nat, Conn>
    var batch: seq<Req>
    var at: nat
    var executing: bool
    var chains: map<nat, seq<Req>>
    var jobs: map<nat, seq<Req>>
    var posted: seq<Req>
    var drained: seq<Req>
    var next: nat

    ghost function S(): State
      reads this
    {
      State(conns, batch, at, executing, chains, jobs, posted, drained, next)
    }

    ghost predicate Valid()
      reads this
    {
      Ok(peek, S())
    }

    constructor (peek: Peeker)
      ensures Valid() && this.peek == peek && S() == State(map[], [], 0, false, map[], map[], [], [], 0)
    {
      this.peek := peek;
      conns, batch, at, executing, chains, jobs := map[], [], 0, false, map[], map[];
      posted, drained, next := [], [], 0;
    }

    /** A read, or another PUT of the group, joins the batch. */
    method Push(c: nat, k: Conn, puts: nat, op: Op, size: nat) returns (k': Conn, puts': nat)
      requires Sized(peek) && Mid(peek, S(), c, k, puts) && (op == Put || (puts == 0 && !IsWrite(op)))
      requires peek(k.input[k.pos..]) == Complete(op, size)
      modifies `batch
      ensures Mid(peek, S(), c, k', puts') && batch == old(batch) + [Req(c, k.asked, op)]
      ensures ParsedFrom(k, k', old(batch), batch) && k.pos < k'.pos == k.pos + size <= |k.input|
      ensures k' == Parsed(k, size) && puts' == if op == Put then puts + 1 else 0
    {
      MidPush(peek, S(), c, k, puts, op, size);
      batch := batch + [Req(c, k.asked, op)];
      k', puts' := Parsed(k, size), if op == Put then puts + 1 else 0;
    }

    /** Any other write joins the batch and blocks its connection. */
    method PushLast(c: nat, k: Conn, op: Op, size: nat) returns (k': Conn)
      requires Sized(peek) && Mid(peek, S(), c, k, 0) && IsWrite(op) && op != Put
      requires peek(k.input[k.pos..]) == Complete(op, size)
      modifies `batch, `conns
      ensures Valid() && batch == old(batch) + [Req(c, k.asked, op)] && conns == old(conns)[c := k']
      ensures ParsedFrom(k, k', old(batch), batch) && k.pos < k'.pos == k.pos + size <= |k.input|
      ensures k' == Parsed(k, size).(blocked := true)
    {
      BlockPush(peek, S(), c, k, op, size);
      batch := batch + [Req(c, k.asked, op)];
      k' := Parsed(k, size).(blocked := true);
      conns := conns[c := k'];
    }

    /** Nothing more can be parsed now. */
    method Stop(c: nat, k: Conn, puts: nat, refused: bool) returns (k': Conn)
      requires Mid(peek, S(), c, k, puts)
      modifies `conns
      ensures Valid() && conns == old(conns)[c := k'] && k' == Halted(k, puts, refused) && k.pos <= |k.input|
    {
      k' := Halted(k, puts, refused);
      MidEnd(peek, S(), c, k, puts, k');
      conns := conns[c := k'];
    }

    /** Parse every complete frame of the connection into the batch, up to and
        including the first write; back-to-back PUTs form one group. */
    method Parse(c: nat)
      requires Sized(peek) && Headed(peek) && Valid() && !executing && c in conns
      modifies `conns, `batch
      ensures Valid() && conns.Keys == old(conns.Keys) && (forall d :: d in conns && d != c ==> conns[d] == old(conns)[d])
      ensures ParsedFrom(old(conns)[c], conns[c], old(batch), batch) && SettledAt(peek, conns[c]) && old(conns)[c].pos <= |old(conns)[c].input|
      ensures (conns[c], batch) == if old(conns)[c].blocked || old(conns)[c].closing then (old(conns)[c], old(batch))
                                   else ParseOn(peek, c, old(conns)[c], old(batch), 0)
    {
      assert ConnAt(peek, S(), c);
      if !conns[c].blocked && !conns[c].closing {
        MidBegin(peek, S(), c);
        var _ := ParseAll(c, conns[c]);
      }
    }

    method ParseAll(c: nat, k0: Conn) returns (k: Conn)
      requires Sized(peek) && Headed(peek) && Mid(peek, S(), c, k0, 0)
      modifies `conns, `batch
      ensures Valid() && conns == old(conns)[c := k] && ParsedFrom(k0, k, old(batch), batch) && SettledAt(peek, k)
      ensures k0.pos <= |k0.input| && (k, batch) == ParseOn(peek, c, k0, old(batch), 0)
    {
      assert Cut(peek, k0);
      k := k0;
      var puts: nat, stop := 0, false;
      while !stop
        invariant ParsedFrom(k0, k, old(batch), batch) && k.pos <= |k.input|
        invariant if stop then Valid() && conns == old(conns)[c := k] && SettledAt(peek, k) else conns == old(conns) && Mid(peek, S(), c, k, puts)
        invariant ParseOn(peek, c, k0, old(batch), 0) == if stop then (k, batch) else ParseOn(peek, c, k, batch, puts)
        decreases !stop, |k.input| - k.pos
      {
        k, puts, stop := ParseNext(c, k, puts);
      }
    }

    /** One turn of the parser. */
    method ParseNext(c: nat, k: Conn, puts: nat) returns (k': Conn, puts': nat, stop: bool)
      requires Sized(peek) && Headed(peek) && Mid(peek, S(), c, k, puts)
      modifies `conns, `batch
      ensures k.pos <= |k.input| && Turn(peek, c, k, puts, old(batch), k', puts', batch, stop)
      ensures if stop then Valid() && conns == old(conns)[c := k'] else conns == old(conns) && Mid(peek, S(), c, k', puts')
    {
      assert Cut(peek, k);
      var b := k.input[k.pos..];
      var look := peek(b);
      if look.Complete? && !GroupEnds(b, puts) {
        JoinsGroup(peek, b, puts);
        k', puts', stop := ParseFrame(c, k, puts, look.op, look.size);
        FrameTurn(peek, c, k, puts, batch[..|batch| - 1]);
      } else {
        k' := Stop(c, k, puts, !GroupEnds(b, puts) && look.Refused?);
        puts', stop := puts, true;
        StopTurn(peek, c, k, puts, batch);
      }
    }

    /** A complete frame. */
    method ParseFrame(c: nat, k: Conn, puts: nat, op: Op, size: nat) returns (k': Conn, puts': nat, stop: bool)
      requires Sized(peek) && Mid(peek, S(), c, k, puts) && k.pos <= |k.input|
      requires peek(k.input[k.pos..]) == Complete(op, size) && (puts > 0 ==> op == Put)
      modifies `conns, `batch
      ensures batch == old(batch) + [Req(c, k.asked, op)] && stop == LastOf(op)
      ensures k' == Framed(k, op, size) && puts' == PutsAfter(op, puts)
      ensures if stop then Valid() && conns == old(conns)[c := k'] else conns == old(conns) && Mid(peek, S(), c, k', puts')
    {
      stop := LastOf(op);
      if stop {
        k' := PushLast(c, k, op, size);
        puts' := 0;
      } else {
        k', puts' := Push(c, k, puts, op, size);
      }
    }

    // --- the loop thread

    method Accept(c: nat)
      requires Valid() && c !in conns
      modifies `conns
      ensures Valid() && conns == old(conns)[c := FRESH]
    {
      AcceptedOk(peek, S(), c, FRESH);
      conns := conns[c := FRESH];
    }

    /** Bytes have arrived. */
    method OnRecv(c: nat, bytes: seq<Byte>)
      requires Framing(peek) && Valid() && !executing && c in conns
      modifies `conns, `batch
      ensures Valid() && conns.Keys == old(conns.Keys) && conns[c].stream == old(conns)[c].stream + bytes
      ensures old(batch) <= batch && SettledAt(peek, conns[c])
      ensures var k := Fed(old(conns)[c], bytes);
        k.pos <= |k.input| && (conns[c], batch) == if k.blocked || k.closing then (k, old(batch)) else ParseOn(peek, c, k, old(batch), 0)
    {
      ReceivedOk(peek, S(), c, bytes);
      conns := conns[c := Fed(conns[c], bytes)];
      Parse(c);
    }

    /** Take over the posted answers. */
    method OnWake()
      requires Valid() && !executing && next == |drained|
      modifies `drained, `next, `posted
      ensures Valid() && S() == Swapped(old(S()))
    {
      SwappedOk(peek, S());
      drained, next, posted := posted, 0, [];
    }

    /** Hand over one of them; the last one owed unblocks its connection. */
    method OnWakeNext()
      requires Framing(peek) && Valid() && !executing && next < |drained|
      modifies `conns, `next, `batch
      ensures Valid() && next == old(next) + 1 && conns.Keys == old(conns.Keys) && old(batch) <= batch
      ensures var r := drained[old(next)]; r.conn in conns && conns[r.conn].answered == old(conns[r.conn].answered) + [r.no]
      ensures Resumes(peek, old(conns), old(batch), drained[old(next)], conns, batch)
    {
      var r := drained[next];
      PosInside(peek, S(), r.conn);
      var resume := HandOver();
      if resume { Parse(r.conn); }
    }

    method HandOver() returns (resume: bool)
      requires Valid() && next < |drained|
      modifies `conns, `next
      ensures var r := drained[old(next)]; r.conn in old(conns) && old(conns)[r.conn].outstanding > 0
      ensures Valid() && S() == DrainedOne(old(S()))
      ensures var k := old(conns)[drained[old(next)].conn]; resume == (k.blocked && k.outstanding == 1)
    {
      DrainedOneOk(peek, S());
      var r := drained[next];
      var k := conns[r.conn];
      resume := k.blocked && k.outstanding == 1;
      conns, next := conns[r.conn := Drained(k, r.no)], next + 1;
    }

    method ExecBegin()
      requires Valid() && !executing
      modifies `executing
      ensures Valid() && executing
    {
      executing := true;
      assert forall c :: c in conns ==> ConnAt(peek, old(S()), c) ==> ConnAt(peek, S(), c);
    }

    /** One request of the batch: `deferred` says that a read needs the disk,
        `malformed` that a batch body does not decode. */
    method ExecNext(deferred: bool, malformed: bool)
      requires Valid() && executing && at < |batch|
      modifies `conns, `at, `chains, `jobs
      ensures Valid() && at > old(at)
      ensures var s, r := old(S()), batch[old(at)];
        var chained := At(s.chains, r.conn) != [];
        if r.op == Put then S() == Written(s, at)
        else if r.op == Del || (r.op == MPut && !malformed) then at == s.at + 1 && S() == Written(s, at)
        else if chained || ((r.op == Get || (r.op == MGet && !malformed)) && deferred) then S() == ChainedOne(s)
        else r.conn in s.conns && s.conns[r.conn].outstanding > 0 && S() == Inlined(s)
    {
      var r := batch[at];
      var chained := r.conn in chains && chains[r.conn] != [];
      if r.op == Put {
        ExecPuts();
      } else if r.op == Del || (r.op == MPut && !malformed) {
        ExecWrite();
      } else if chained || ((r.op == Get || (r.op == MGet && !malformed)) && deferred) {
        ExecChained();
      } else {
        ExecInline();
      }
    }

    method ExecPuts()
      requires Valid() && executing && at < |batch| && batch[at].op == Put
      modifies `at, `chains, `jobs
      ensures Valid() && old(at) < at <= |batch| && S() == Written(old(S()), at)
    {
      var j := GroupEnd();
      GroupIsAll(peek, S(), j);
      WrittenOk(peek, S(), j);
      Write(batch[at].conn, j);
    }

    method ExecWrite()
      requires Valid() && executing && at < |batch| && IsWrite(batch[at].op) && batch[at].op != Put
      modifies `at, `chains, `jobs
      ensures Valid() && at == old(at) + 1 && S() == Written(old(S()), at)
    {
      WriteIsLast(peek, S());
      WrittenOk(peek, S(), at + 1);
      Write(batch[at].conn, at + 1);
    }

    method ExecChained()
      requires Valid() && executing && at < |batch|
      modifies `at, `chains
      ensures Valid() && at == old(at) + 1 && S() == ChainedOne(old(S()))
    {
      ChainedOneOk(peek, S());
      var r := batch[at];
      chains, at := chains[r.conn := (if r.conn in chains then chains[r.conn] else []) + [r]], at + 1;
    }

    method ExecInline()
      requires Valid() && executing && at < |batch| && At(chains, batch[at].conn) == []
      modifies `at, `conns
      ensures batch[old(at)].conn in old(conns) && old(conns)[batch[old(at)].conn].outstanding > 0
      ensures Valid() && at == old(at) + 1 && S() == Inlined(old(S()))
    {
      InlinedOk(peek, S());
      var r := batch[at];
      var k := conns[r.conn];
      conns, at := conns[r.conn := k.(answered := k.answered + [r.no], outstanding := k.outstanding - 1)], at + 1;
    }

    /** Where the run of PUTs of one connection ends. */
    method GroupEnd() returns (j: nat)
      requires at < |batch| && batch[at].op == Put
      ensures at < j <= |batch| && forall k :: at <= k < j ==> batch[k].conn == batch[at].conn
      ensures j < |batch| ==> batch[j].op != Put || batch[j].conn != batch[at].conn
    {
      j := at + 1;
      while j < |batch| && batch[j].op == Put && batch[j].conn == batch[at].conn
        invariant at < j <= |batch| && forall k :: at <= k < j ==> batch[k].conn == batch[at].conn
      {
        j := j + 1;
      }
    }

    /** The job joins the chain, or runs in its own goroutine. */
    method Write(c: nat, j: nat)
      requires at < j <= |batch| && c == batch[at].conn
      modifies `at, `chains, `jobs
      ensures S() == Written(old(S()), j)
    {
      if c in chains && chains[c] != [] {
        chains := chains[c := chains[c] + batch[at..j]];
      } else {
        jobs := jobs[c := batch[at..j]];
      }
      at := j;
    }

    /** Block one deferred connection and start its goroutine. */
    method DeferNext(c: nat)
      requires Valid() && executing && at == |batch| && c in chains
      modifies `conns, `jobs, `chains
      ensures Valid() && c in old(conns) && S() == Deferred(old(S()), c)
    {
      DeferredOk(peek, S(), c);
      conns := conns[c := conns[c].(blocked := true)];
      jobs, chains := jobs[c := chains[c]], chains - {c};
    }

    method ExecDone()
      requires Valid() && executing && at == |batch| && chains == map[]
      modifies `batch, `at, `executing
      ensures Valid() && !executing && batch == []
    {
      ExecutedOk(peek, S());
      batch, at, executing := [], 0, false;
    }

    /** After the batch: the error for a refused frame is appended, whatever is still
        outstanding; a connection whose write was answered inline goes on, and parsed
        input is dropped from the buffer unless requests still point into it. */
    method Post(c: nat)
      requires Framing(peek) && Valid() && !executing && c in conns
      modifies `conns, `batch
      ensures Valid() && conns.Keys == old(conns.Keys) && old(batch) <= batch
      ensures old(conns)[c].closing ==> conns == old(conns)[c := Replied(old(conns)[c])] && batch == old(batch)
      ensures !conns[c].closing && |batch| > |old(batch)| ==> conns[c].input == old(conns)[c].input
      ensures !conns[c].closing && |batch| == |old(batch)| ==> conns[c].pos == 0
      ensures old(conns)[c].pos <= |old(conns)[c].input|
      ensures !old(conns)[c].closing ==> Settles(peek, c, Replied(old(conns)[c]), old(batch), conns[c], batch)
    {
      PosInside(peek, S(), c);
      var k := Replied(conns[c]);
      ReplyOk(peek, S(), c);
      conns := conns[c := k];
      if k.closing { return; }
      var had := |batch|;
      Resume(c);
      ghost var k1 := conns[c];
      PosInside(peek, S(), c);
      assert GoesOn(peek, c, k, old(batch), k1, batch);
      if |batch| != had || conns[c].closing { return; }
      Compact(c);
    }

    method Resume(c: nat)
      requires Framing(peek) && Valid() && !executing && c in conns
      modifies `conns, `batch
      ensures Valid() && conns.Keys == old(conns.Keys) && old(batch) <= batch && conns[c].input == old(conns)[c].input
      ensures old(conns)[c].pos <= |old(conns)[c].input|
      ensures GoesOn(peek, c, old(conns)[c], old(batch), conns[c], batch)
    {
      PosInside(peek, S(), c);
      var k := conns[c];
      if k.blocked && k.outstanding == 0 {
        Free(c);
        Parse(c);
      }
    }

    method Free(c: nat)
      requires Valid() && c in conns && conns[c].outstanding == 0
      modifies `conns
      ensures Valid() && conns == old(conns)[c := old(conns)[c].(blocked := false)]
    {
      UnblockedOk(peek, S(), c);
      conns := conns[c := conns[c].(blocked := false)];
    }

    method Compact(c: nat)
      requires Valid() && c in conns
      modifies `conns
      ensures Valid() && conns.Keys == old(conns.Keys) && conns[c].pos == 0 && conns[c].closing == old(conns)[c].closing
      ensures var k := old(conns)[c]; k.pos <= |k.input| && conns == old(conns)[c := k.(input := k.input[k.pos..], pos := 0)]
    {
      CompactedOk(peek, S(), c);
      conns := conns[c := conns[c].(input := conns[c].input[conns[c].pos..], pos := 0)];
    }

    // --- the goroutines

    /** The goroutine of `c` posts its next answer, at any time. */
    method GoAnswer(c: nat)
      requires Valid() && c in jobs && jobs[c] != []
      modifies `posted, `jobs
      ensures Valid() && S() == Posted(old(S()), c)
    {
      PostedOk(peek, S(), c);
      posted, jobs := posted + [jobs[c][0]], jobs[c := jobs[c][1..]];
    }
  }

  // ----- what can go wrong

  lemma RefusedFrames()
    ensures Peek([1, 0, 0, 0, 0, 0, 0, 255]) == Complete(Put, 7) && Peek([255]) == Refused
  {}

  /** A PUT and a frame that is refused arrive together: the error is appended before the
      PUT's goroutine has answered. */
  method RefusedBehindWrite(peek: Peeker, put: seq<Byte>, bad: seq<Byte>, c: nat) returns (loop: Loop)
    requires Framing(peek) && peek(put + bad) == Complete(Put, |put|) && peek(bad) == Refused && |bad| < 7
    ensures fresh(loop) && loop.Valid() && loop.conns.Keys == {c}
    ensures loop.conns[c].refusal == Said(0) && loop.conns[c].asked == loop.conns[c].outstanding == 1
  {
    loop := Receiving(peek, put, bad, c);
    ExecuteOne(loop, c);
    loop.Post(c);
  }

  /** A PUT was parsed and the frame behind it refused. */
  ghost predicate Refusing(k: Conn) { k.closing && k.refusal == Queued && k.answered == [] && k.asked == k.outstanding == 1 }

  method Receiving(peek: Peeker, put: seq<Byte>, bad: seq<Byte>, c: nat) returns (loop: Loop)
    requires Framing(peek) && peek(put + bad) == Complete(Put, |put|) && peek(bad) == Refused && |bad| < 7
    ensures fresh(loop) && loop.Valid() && loop.peek == peek && loop.conns.Keys == {c} && Refusing(loop.conns[c])
    ensures loop.batch == [Req(c, 0, Put)] && loop.at == 0 && !loop.executing && loop.chains == map[]
  {
    loop := new Loop(peek);
    loop.Accept(c);
    RefusedParse(peek, put, bad, c);
    loop.OnRecv(c, put + bad);
  }

  /** The batch of one PUT is executed: its goroutine has still to answer. */
  method ExecuteOne(loop: Loop, c: nat)
    requires loop.Valid() && loop.conns.Keys == {c} && loop.batch == [Req(c, 0, Put)] && loop.at == 0 && !loop.executing && loop.chains == map[]
    modifies loop
    ensures loop.Valid() && loop.conns == old(loop.conns) && !loop.executing
  {
    loop.ExecBegin();
    loop.ExecNext(false, false);
    loop.ExecDone();
  }

  lemma RefusedParse(peek: Peeker, put: seq<Byte>, bad: seq<Byte>, c: nat)
    requires Sized(peek) && peek(put + bad) == Complete(Put, |put|) && peek(bad) == Refused && |bad| < 7
    ensures var k := Fed(FRESH, put + bad);
      ParseOn(peek, c, k, [], 0) == (Parsed(k, |put|).(closing := true, refusal := Queued), [Req(c, 0, Put)])
  {
    var k := Fed(FRESH, put + bad);
    assert k.input[0..] == put + bad;
    var k1 := Parsed(k, |put|);
    assert k1.input[k1.pos..] == bad;
    assert ParseOn(peek, c, k1, [Req(c, 0, Put)], 1) == (Halted(k1, 1, true), [Req(c, 0, Put)]);
    assert [] + [Req(c, 0, Put)] == [Req(c, 0, Put)];
  }
}
