/** The event loop of the network front-end: requests of many connections are
    batched, answered inline or by goroutines, and every connection gets its
    answers in the order of its requests. */
module Netfront {
  import opened Basics
  import opened Frames

  /** Request number `no` of connection `conn`. */
  datatype Req = Req(conn: nat, no: nat, op: Op)

  predicate IsWrite(op: Op) { op == Put || op == Del || op == MPut }

  /** The error that answers a frame which cannot be served: queued, or said after that
      many answers. */
  datatype Refusal = NoRefusal | Queued | Said(after: nat)

  /** One connection: the unparsed input is `input[pos..]`; `answered` numbers the
      requests whose answers were appended to its output, in that order.  `stream`
      (every byte received) and `asked` (how many requests were parsed) are history. */
  datatype Conn = Conn(input: seq<Byte>, pos: nat, answered: seq<nat>, outstanding: nat, blocked: bool, closing: bool,
                       stream: seq<Byte>, asked: nat, refusal: Refusal)

  /** Everything between the parser and the outputs: the batch being built or
      executed (from `at` on), chains of deferred requests, what each connection's
      goroutine has still to answer, answers posted and answers being drained
      (from `next` on). */
  datatype State = State(conns: map<nat, Conn>, batch: seq<Req>, at: nat, executing: bool,
                         chains: map<nat, seq<Req>>, jobs: map<nat, seq<Req>>,
                         posted: seq<Req>, drained: seq<Req>, next: nat)

  // ----- one connection's share

  /** The requests of connection `c` from position `i` on. */
  ghost function Of(s: seq<Req>, c: nat, i: nat): seq<Req>
    requires i <= |s|
    decreases |s| - i
  {
    if i == |s| then [] else (if s[i].conn == c then [s[i]] else []) + Of(s, c, i + 1)
  }

  lemma {:induction false} OfAppend(s: seq<Req>, r: Req, c: nat, i: nat)
    requires i <= |s|
    ensures Of(s + [r], c, i) == Of(s, c, i) + if r.conn == c then [r] else []
    decreases |s| - i
  {
    if i < |s| {
      OfAppend(s, r, c, i + 1);
    } else {
      assert Of(s + [r], c, i + 1) == [];
    }
  }

  /** A stretch of one connection's requests. */
  lemma {:induction false} OfRun(s: seq<Req>, c: nat, i: nat, j: nat)
    requires i <= j <= |s| && forall k :: i <= k < j ==> s[k].conn == c
    ensures Of(s, c, i) == s[i..j] + Of(s, c, j)
    decreases j - i
  {
    if i < j {
      OfRun(s, c, i + 1, j);
      var tail := Of(s, c, j);
      assert s[i..j] + tail == [s[i]] + (s[i + 1..j] + tail);
    }
  }

  lemma {:induction false} OfSkip(s: seq<Req>, c: nat, i: nat, j: nat)
    requires i <= j <= |s| && forall k :: i <= k < j ==> s[k].conn != c
    ensures Of(s, c, i) == Of(s, c, j)
    decreases j - i
  {
    if i < j { OfSkip(s, c, i + 1, j); }
  }

  lemma {:induction false} OfNone(s: seq<Req>, c: nat, i: nat)
    requires i <= |s|
    ensures Of(s, c, i) == [] <==> forall k :: i <= k < |s| ==> s[k].conn != c
    decreases |s| - i
  {
    if i < |s| { OfNone(s, c, i + 1); }
  }

  // ----- order

  /** Consecutive request numbers from `lo` on. */
  ghost predicate Run(s: seq<nat>, lo: nat) { forall i :: 0 <= i < |s| ==> s[i] == lo + i }

  ghost predicate Numbered(s: seq<Req>, lo: nat) { forall i :: 0 <= i < |s| ==> s[i].no == lo + i }

  /** A connection's share: answers being drained, posted, owed by its goroutine,
      chained, and requests still in the batch. */
  datatype Share = Share(drained: seq<Req>, posted: seq<Req>, jobs: seq<Req>, chain: seq<Req>, rest: seq<Req>)

  function Away(h: Share): nat { |h.drained| + |h.posted| + |h.jobs| }

  ghost predicate HasWrite(rest: seq<Req>) { exists i :: 0 <= i < |rest| && IsWrite(rest[i].op) }

  /** A write is followed by nothing but the PUTs of its own group. */
  ghost predicate WritesLast(rest: seq<Req>) {
    forall i, j :: 0 <= i < j < |rest| && IsWrite(rest[i].op) ==> rest[i].op == Put && rest[j].op == Put
  }

  /** The answers given, then the share, number the requests from 0 without a gap. */
  ghost predicate InOrder(k: Conn, h: Share) {
    var a := |k.answered|;
    && Run(k.answered, 0) && Numbered(h.drained, a) && Numbered(h.posted, a + |h.drained|)
    && Numbered(h.jobs, a + |h.drained| + |h.posted|) && Numbered(h.chain, a + Away(h)) && Numbered(h.rest, a + Away(h) + |h.chain|)
    && k.asked == a + Away(h) + |h.chain| + |h.rest|
  }

  /** While an answer is away nothing more is parsed and nothing else is pending. */
  ghost predicate Held(k: Conn, h: Share) {
    && k.outstanding == Away(h) + |h.chain| + |h.rest|
    && (Away(h) > 0 ==> (k.blocked || k.closing) && h.chain == [] && h.rest == [])
    && WritesLast(h.rest) && (HasWrite(h.rest) ==> k.blocked || k.closing)
  }

  ghost predicate OrderOk(k: Conn, h: Share) { InOrder(k, h) && Held(k, h) }

  /** The input continues right behind the requests parsed. */
  ghost predicate Cut(peek: Peeker, k: Conn) {
    && k.pos <= |k.input| && |k.input| - k.pos <= |k.stream|
    && k.input[k.pos..] == k.stream[|k.stream| - (|k.input| - k.pos)..]
    && End(peek, k.stream, k.asked) == Some(|k.stream| - (|k.input| - k.pos))
  }

  // ----- what each step does to one connection and its share

  lemma TailOk(rest: seq<Req>, lo: nat)
    requires rest != [] && Numbered(rest, lo) && WritesLast(rest)
    ensures Numbered(rest[1..], lo + 1) && WritesLast(rest[1..])
    ensures HasWrite(rest[1..]) ==> HasWrite(rest)
  {
    var tail := rest[1..];
    forall i | 0 <= i < |tail| ensures tail[i] == rest[i + 1] {}
    forall i, j | 0 <= i < j < |tail| && IsWrite(tail[i].op) ensures tail[i].op == Put && tail[j].op == Put {
      assert IsWrite(rest[i + 1].op) && tail[j] == rest[j + 1];
    }
    if HasWrite(tail) {
      var i :| 0 <= i < |tail| && IsWrite(tail[i].op);
      assert IsWrite(rest[i + 1].op);
    }
  }

  lemma InlineOk(k: Conn, h: Share)
    requires OrderOk(k, h) && Away(h) == 0 && h.chain == [] && h.rest != []
    ensures k.outstanding > 0
    ensures OrderOk(k.(answered := k.answered + [h.rest[0].no], outstanding := k.outstanding - 1), h.(rest := h.rest[1..]))
  {
    TailOk(h.rest, |k.answered|);
  }

  lemma ChainOk(k: Conn, h: Share)
    requires OrderOk(k, h) && h.rest != []
    ensures OrderOk(k, h.(chain := h.chain + [h.rest[0]], rest := h.rest[1..]))
  {
    TailOk(h.rest, |k.answered| + |h.chain|);
  }

  lemma ChainAllOk(k: Conn, h: Share)
    requires OrderOk(k, h) && h.rest != []
    ensures OrderOk(k, h.(chain := h.chain + h.rest, rest := []))
  {}

  lemma SpawnOk(k: Conn, h: Share)
    requires OrderOk(k, h) && h.rest != [] && h.chain == [] && IsWrite(h.rest[0].op)
    ensures OrderOk(k, h.(jobs := h.rest, rest := []))
  {}

  lemma DeferOk(k: Conn, h: Share)
    requires OrderOk(k, h) && h.chain != [] && h.rest == []
    ensures k.outstanding > 0 && OrderOk(k.(blocked := true), h.(jobs := h.chain, chain := []))
  {}

  lemma PostOk(k: Conn, h: Share)
    requires OrderOk(k, h) && h.jobs != []
    ensures OrderOk(k, h.(posted := h.posted + [h.jobs[0]], jobs := h.jobs[1..]))
  {}

  lemma SwapOk(k: Conn, h: Share)
    requires OrderOk(k, h) && h.drained == []
    ensures OrderOk(k, h.(drained := h.posted, posted := []))
  {}

  /** An answer drained: the connection is free again after the last. */
  function Drained(k: Conn, no: nat): Conn
    requires k.outstanding > 0
  {
    k.(answered := k.answered + [no], outstanding := k.outstanding - 1, blocked := k.blocked && k.outstanding > 1)
  }

  lemma DrainOk(k: Conn, h: Share)
    requires OrderOk(k, h) && h.drained != []
    ensures k.outstanding > 0 && (k.blocked || k.closing) && OrderOk(Drained(k, h.drained[0].no), h.(drained := h.drained[1..]))
  {
    forall i | 0 <= i < |h.drained[1..]| ensures h.drained[1..][i] == h.drained[i + 1] {}
  }

  // ----- the input

  ghost predicate Sized(peek: Peeker) { forall b :: peek(b).Complete? ==> 0 < peek(b).size <= |b| }

  /** A complete frame has a header, and its first byte says whether it is a PUT. */
  ghost predicate Headed(peek: Peeker) {
    forall b :: peek(b).Complete? ==> |b| >= 7 && 1 <= b[0] as nat <= MAX_CMD && (peek(b).op == Put <==> b[0] == 1)
  }

  ghost predicate Framing(peek: Peeker) { Steady(peek) && Sized(peek) && Headed(peek) }

  lemma PeekFraming()
    ensures Framing(Peek)
  {
    PeekSteady();
    forall b: seq<Byte> | Peek(b).Complete? ensures 0 < Peek(b).size <= |b| { PeekSize(b); }
    forall b: seq<Byte> | Peek(b).Complete?
      ensures |b| >= 7 && 1 <= b[0] as nat <= MAX_CMD && (Peek(b).op == Put <==> b[0] == 1)
    {
      PeekOp(b);
    }
  }

  lemma DropAppend(a: seq<Byte>, b: seq<Byte>, p: nat)
    requires p <= |a|
    ensures (a + b)[p..] == a[p..] + b
  {}

  lemma DropDrop(a: seq<Byte>, p: nat, n: nat)
    requires p + n <= |a|
    ensures a[p + n..] == a[p..][n..]
  {}

  lemma ReceiveCut(peek: Peeker, k: Conn, bytes: seq<Byte>)
    requires Steady(peek) && Cut(peek, k)
    ensures Cut(peek, k.(input := k.input + bytes, stream := k.stream + bytes))
  {
    EndGrows(peek, k.stream, bytes, k.asked);
    var p := |k.stream| - (|k.input| - k.pos);
    DropAppend(k.input, bytes, k.pos);
    DropAppend(k.stream, bytes, p);
  }

  function Parsed(k: Conn, size: nat): Conn { k.(pos := k.pos + size, asked := k.asked + 1, outstanding := k.outstanding + 1) }

  lemma ParseCut(peek: Peeker, k: Conn)
    requires Sized(peek) && Cut(peek, k) && peek(k.input[k.pos..]).Complete?
    ensures Cut(peek, Parsed(k, peek(k.input[k.pos..]).size))
    ensures End(peek, k.stream, k.asked + 1).Some? && OpAt(peek, k.stream, k.asked) == peek(k.input[k.pos..]).op
  {
    var size := peek(k.input[k.pos..]).size;
    var p := |k.stream| - (|k.input| - k.pos);
    DropDrop(k.input, k.pos, size);
    DropDrop(k.stream, p, size);
    EndNext(peek, k.stream, k.asked, p);
  }

  lemma EndNext(peek: Peeker, s: seq<Byte>, n: nat, p: nat)
    requires Sized(peek) && p <= |s| && End(peek, s, n) == Some(p) && peek(s[p..]).Complete?
    ensures End(peek, s, n + 1) == Some(p + peek(s[p..]).size) && OpAt(peek, s, n) == peek(s[p..]).op
  {}

  // ----- parsing

  /** In the middle of a parse: the last `puts` requests of the share are PUTs, and
      there is no write before them. */
  ghost predicate Parsing(k: Conn, h: Share, puts: nat) {
    && InOrder(k, h) && k.outstanding == |h.rest| && Away(h) == 0 && h.chain == [] && puts <= |h.rest|
    && (forall i :: 0 <= i < |h.rest| - puts ==> !IsWrite(h.rest[i].op))
    && (forall i :: |h.rest| - puts <= i < |h.rest| ==> h.rest[i].op == Put)
  }

  lemma ParseBegin(k: Conn, h: Share)
    requires OrderOk(k, h) && !k.blocked && !k.closing && h.chain == []
    ensures Parsing(k, h, 0)
  {
    forall i | 0 <= i < |h.rest| ensures !IsWrite(h.rest[i].op) { assert !HasWrite(h.rest); }
  }

  lemma ParseEnd(k: Conn, h: Share, puts: nat)
    requires Parsing(k, h, puts) && (puts > 0 ==> k.blocked || k.closing)
    ensures OrderOk(k, h)
  {}

  lemma ParseOne(k: Conn, h: Share, puts: nat, r: Req, size: nat)
    requires Parsing(k, h, puts) && r.no == k.asked && (puts > 0 ==> r.op == Put)
    ensures var k', h' := Parsed(k, size), h.(rest := h.rest + [r]);
      && (r.op == Put ==> Parsing(k', h', puts + 1))
      && (!IsWrite(r.op) ==> Parsing(k', h', puts))
      && (IsWrite(r.op) && r.op != Put ==> OrderOk(k'.(blocked := true), h'))
  {}

  // ----- the whole loop

  function At(m: map<nat, seq<Req>>, c: nat): seq<Req> { if c in m then m[c] else [] }

  ghost predicate Bounds(s: State) { s.at <= |s.batch| && s.next <= |s.drained| }

  ghost function ShareOf(s: State, c: nat): Share
    requires Bounds(s)
  {
    Share(Of(s.drained, c, s.next), Of(s.posted, c, 0), At(s.jobs, c), At(s.chains, c), Of(s.batch, c, s.at))
  }

  ghost predicate ConnAt(peek: Peeker, s: State, c: nat)
    requires Bounds(s)
  {
    c in s.conns && OrderOk(s.conns[c], ShareOf(s, c)) && Cut(peek, s.conns[c])
  }

  ghost predicate FromConns(conns: map<nat, Conn>, s: seq<Req>) { forall i :: 0 <= i < |s| ==> s[i].conn in conns }

  /** What is queued for a connection is that connection's. */
  ghost predicate Owned(conns: map<nat, Conn>, m: map<nat, seq<Req>>) {
    forall c :: c in m ==> c in conns && forall i :: 0 <= i < |m[c]| ==> m[c][i].conn == c
  }

  ghost predicate Known(s: State) {
    && FromConns(s.conns, s.batch) && FromConns(s.conns, s.posted) && FromConns(s.conns, s.drained)
    && Owned(s.conns, s.jobs) && Owned(s.conns, s.chains) && (forall c :: c in s.chains ==> s.chains[c] != [])
  }

  /** Between a PUT and a later request of its connection there is nobody else's. */
  ghost predicate Joined(batch: seq<Req>, p: nat, q: nat)
    requires p <= q < |batch|
  {
    batch[p].op == Put && batch[p].conn == batch[q].conn ==> forall k :: p <= k <= q ==> batch[k].conn == batch[p].conn
  }

  ghost predicate Adjacent(batch: seq<Req>, at: nat) {
    forall p, q {:trigger Joined(batch, p, q)} :: at <= p <= q < |batch| ==> Joined(batch, p, q)
  }

  ghost predicate Ok(peek: Peeker, s: State) {
    && Bounds(s) && Known(s) && Adjacent(s.batch, s.at)
    && (forall c {:trigger ConnAt(peek, s, c)} :: c in s.conns ==> ConnAt(peek, s, c))
    && (!s.executing ==> s.at == 0 && s.chains == map[])
  }

  /** Every answer so far is in request order, and nothing is owed when nothing is
      outstanding. */
  lemma AnswersInOrder(peek: Peeker, s: State, c: nat)
    requires Ok(peek, s) && c in s.conns
    ensures var k := s.conns[c];
      && |k.answered| + k.outstanding == k.asked && (forall i :: 0 <= i < |k.answered| ==> k.answered[i] == i)
      && End(peek, k.stream, k.asked).Some?
  {
    assert ConnAt(peek, s, c);
  }
}
