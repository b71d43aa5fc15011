/** Sending a snapshot file in chunks: whatever is lost, repeated, reordered or
    interleaved with other transfers, the receive file is a prefix of one file, and
    it is installed only when it is that whole file. */
module ChunkTransfer {
  import opened Basics

  /** What identifies a snapshot file in a transfer. */
  datatype Name = Name(index: nat, term: nat, id: nat, size: nat)

  /** The file each name stands for. */
  type Files = Name -> Bytes

  ghost predicate FilesOk(files: Files) { forall n :: |files(n)| == n.size }

  datatype Chunk = Chunk(term: nat, name: Name, offset: nat, data: Bytes, done: bool)

  /** The data is what the named file has at that offset. */
  ghost predicate Truthful(files: Files, c: Chunk)
    requires FilesOk(files)
  {
    && c.offset + |c.data| <= c.name.size && c.data == files(c.name)[c.offset..c.offset + |c.data|]
    && (c.done ==> c.offset + |c.data| == c.name.size)
  }

  datatype Progress = Receiving | Installing | Installed | Failed

  datatype Transfer = Transfer(name: Name, written: nat, progress: Progress)

  /** A follower's side: the transfer in hand, the bytes of the receive file, and
      (history) every install started, with the bytes it was started on. */
  datatype Follower = Follower(term: nat, snap: nat, applied: nat, recv: Option<Transfer>, file: Bytes,
                               installs: seq<(Name, Bytes)>)

  datatype Reply = Reply(term: nat, next: nat, installing: bool, installed: bool, failed: bool, busy: bool)

  /** What may go wrong around one chunk: persisting the term, creating or writing
      the receive file, starting the install. */
  datatype Luck = Luck(persisted: bool, created: bool, written: bool, spawned: bool)

  function Plain(term: nat, next: nat): Reply { Reply(term, next, false, false, false, false) }

  /** The transfer the chunk belongs to, created at offset 0 if it is a new one. */
  function Write(s: Follower, t: Transfer, c: Chunk, luck: Luck): (Follower, Reply) {
    if c.offset != t.written || t.written + |c.data| > t.name.size then
      (s, Plain(s.term, t.written))
    else if c.data != [] && !luck.written then
      (s.(recv := None, file := []), Plain(s.term, 0))
    else
      var t' := t.(written := t.written + |c.data|);
      var s' := s.(file := s.file + c.data, recv := Some(t'));
      if !c.done || t'.written != t.name.size then (s', Plain(s.term, t'.written))
      else if !luck.spawned then
        (s'.(recv := Some(t'.(progress := Failed))), Plain(s.term, t'.written))
      else
        (s'.(recv := Some(t'.(progress := Installing)), installs := s.installs + [(t.name, s'.file)]),
         Plain(s.term, t'.written).(installing := true))
  }

  function Receive(s: Follower, c: Chunk, luck: Luck): (Follower, Reply) {
    if c.term < s.term || (c.term > s.term && !luck.persisted) then
      (s.(term := Max(s.term, c.term)), Plain(s.term, 0))
    else
      var s1 := s.(term := c.term);
      if s.recv.Some? && s.recv.value.name == c.name then
        match s.recv.value.progress {
          case Installing => (s1, Plain(c.term, 0).(installing := true))
          case Installed => (s1, Plain(c.term, 0).(installed := true))
          case Failed => (s1.(recv := None), Plain(c.term, 0).(failed := true))
          case Receiving => Write(s1, s.recv.value, c, luck)
        }
      else if c.name.index <= s.snap || c.name.index <= s.applied then
        (s1, Plain(c.term, 0).(installed := true))
      else if s.recv.Some? && s.recv.value.progress == Installing then
        (s1, Plain(c.term, 0).(busy := true))
      else if c.offset != 0 then
        (s1, Plain(c.term, 0))
      else if !luck.created then
        (s1.(recv := None, file := []), Plain(c.term, 0))
      else
        var t := Transfer(c.name, 0, Receiving);
        Write(s1.(recv := Some(t), file := []), t, c, luck)
  }

  /** The chunk is of an older term, or its later term could not be saved. */
  predicate Stale(s: Follower, c: Chunk, luck: Luck) { c.term < s.term || (c.term > s.term && !luck.persisted) }

  /** The transfer in hand, in the state `progress`, is the chunk's. */
  predicate InHand(s: Follower, c: Chunk, progress: Progress) {
    s.recv.Some? && s.recv.value.name == c.name && s.recv.value.progress == progress
  }

  predicate Covered(s: Follower, c: Chunk) { c.name.index <= s.snap || c.name.index <= s.applied }

  /** The chunk may begin a transfer: of no transfer in hand, nothing held covers it, and
      nothing is being installed. */
  predicate Fresh(s: Follower, c: Chunk) {
    && !Covered(s, c) && c.offset == 0
    && (s.recv.Some? ==> s.recv.value.name != c.name && s.recv.value.progress != Installing)
  }

  /** The whole file is here with this chunk, behind the `written` bytes received before. */
  predicate Completes(c: Chunk, written: nat) { c.done && c.offset == written && written + |c.data| == c.name.size }

  /** What each reply says, and exactly when it is given. */
  lemma ReplyMeans(s: Follower, c: Chunk, luck: Luck)
    ensures var (_, r) := Receive(s, c, luck); var other := s.recv.Some? ==> s.recv.value.name != c.name;
      && (r.installed <==> !Stale(s, c, luck) && (InHand(s, c, Installed) || (other && Covered(s, c))))
      && (r.failed <==> !Stale(s, c, luck) && InHand(s, c, Failed))
      && (r.busy <==> !Stale(s, c, luck) && other && !Covered(s, c) && s.recv.Some? && s.recv.value.progress == Installing)
      && (r.installing <==>
            && !Stale(s, c, luck)
            && (|| InHand(s, c, Installing)
                || (InHand(s, c, Receiving) && Completes(c, s.recv.value.written) && luck.spawned && (c.data == [] || luck.written))
                || (Fresh(s, c) && luck.created && Completes(c, 0) && luck.spawned && (c.data == [] || luck.written))))
      && r.term == if c.term > s.term && luck.persisted then c.term else s.term
  {}

  /** A first chunk begins the file anew with its data; the reply asks for what follows. */
  lemma StartMeans(s: Follower, c: Chunk, luck: Luck)
    requires !Stale(s, c, luck) && Fresh(s, c) && luck.created && luck.written && |c.data| <= c.name.size && !Completes(c, 0)
    ensures Receive(s, c, luck) ==
      (s.(term := c.term, recv := Some(Transfer(c.name, |c.data|, Receiving)), file := c.data), Plain(c.term, |c.data|))
  {
    assert [] + c.data == c.data;
  }

  /** The chunk that was asked for is added; one that does not fit changes nothing, and the
      reply says what does. */
  lemma ContinueMeans(s: Follower, c: Chunk, luck: Luck)
    requires !Stale(s, c, luck) && InHand(s, c, Receiving) && luck.written && !Completes(c, s.recv.value.written)
    ensures var w := s.recv.value.written;
      Receive(s, c, luck) ==
        if c.offset == w && w + |c.data| <= c.name.size then
          (s.(term := c.term, recv := Some(Transfer(c.name, w + |c.data|, Receiving)), file := s.file + c.data), Plain(c.term, w + |c.data|))
        else
          (s.(term := c.term), Plain(c.term, w))
  {}

  /** The last chunk starts the install of all that was received. */
  lemma CompleteMeans(s: Follower, c: Chunk, luck: Luck)
    requires !Stale(s, c, luck) && (InHand(s, c, Receiving) || (Fresh(s, c) && luck.created))
    requires Completes(c, if InHand(s, c, Receiving) then s.recv.value.written else 0) && luck.written && luck.spawned
    ensures var file := if InHand(s, c, Receiving) then s.file + c.data else c.data;
      Receive(s, c, luck).0 == s.(term := c.term, recv := Some(Transfer(c.name, c.name.size, Installing)), file := file,
                                  installs := s.installs + [(c.name, file)])
  {
    assert [] + c.data == c.data;
  }

  /** When the disk fails: a file that cannot be created or written is dropped and asked for
      from the start, and an install that cannot be started has failed. */
  lemma UnluckyMeans(s: Follower, c: Chunk, luck: Luck)
    requires !Stale(s, c, luck) && (InHand(s, c, Receiving) || Fresh(s, c))
    ensures var (s', r) := Receive(s, c, luck); var w := if InHand(s, c, Receiving) then s.recv.value.written else 0;
      var fits := c.offset == w && w + |c.data| <= c.name.size;
      && (Fresh(s, c) && !luck.created ==> (s', r) == (s.(term := c.term, recv := None, file := []), Plain(c.term, 0)))
      && (fits && c.data != [] && !luck.written ==> (s', r) == (s.(term := c.term, recv := None, file := []), Plain(c.term, 0)))
      && (Completes(c, w) && luck.created && luck.written && !luck.spawned ==>
            s'.recv == Some(Transfer(c.name, c.name.size, Failed)) && s'.installs == s.installs && !r.installing)
  {}

  /** In every other case nothing is written: the transfer in hand stays as it is, except
      that one that failed is forgotten, and one whose file cannot be written is dropped. */
  lemma RestMeans(s: Follower, c: Chunk, luck: Luck)
    requires !InHand(s, c, Receiving) && !(Fresh(s, c) && !Stale(s, c, luck))
    ensures var s' := Receive(s, c, luck).0;
      s' == s.(term := Max(s.term, c.term), recv := if !Stale(s, c, luck) && InHand(s, c, Failed) then None else s.recv)
  {}

  // ----- the sender

  /** A leader's side: the file it sends and how far the follower is believed to be. */
  datatype Sending = Sending(term: nat, name: Name, off: nat)

  /** The next chunk: data at the offset, or a poll once all of it was sent. */
  function NextChunk(file: Bytes, size: nat, x: Sending): Chunk
    requires size > 0 && |file| == x.name.size
  {
    if x.off < x.name.size then
      var n := if x.off + size > x.name.size then x.name.size - x.off else size;
      Chunk(x.term, x.name, x.off, file[x.off..x.off + n], x.off + n == x.name.size)
    else Chunk(x.term, x.name, x.off, [], true)
  }

  /** Follow the reply: `None` ends the transfer, installed, failed or deposed. */
  function Follow(x: Sending, r: Reply): Option<Sending> {
    if r.term > x.term || r.installed || r.failed then None
    else if r.installing || r.busy then Some(x.(off := x.name.size))
    else Some(x.(off := if r.next > x.name.size then 0 else r.next))
  }

  /** Whatever replies a sender heard, its offset stays within the file, so what it
      sends is what the file holds. */
  lemma SenderTruthful(files: Files, size: nat, x: Sending, r: Reply)
    requires FilesOk(files) && size > 0 && x.off <= x.name.size
    ensures Truthful(files, NextChunk(files(x.name), size, x))
    ensures Follow(x, r).Some? ==> Follow(x, r).value.off <= x.name.size && Follow(x, r).value.name == x.name
  {}

  /** Following a follower that is receiving this file makes progress: the chunk it
      asked for is accepted unless the disk fails. */
  lemma FollowedAccepted(files: Files, size: nat, s: Follower, x: Sending, luck: Luck)
    requires FilesOk(files) && size > 0 && Ok(files, s) && s.term == x.term && luck.written && luck.spawned
    requires s.recv == Some(Transfer(x.name, x.off, Receiving))
    ensures var (s', r) := Receive(s, NextChunk(files(x.name), size, x), luck);
      if x.off < x.name.size then r.next == Min(x.off + size, x.name.size) && (r.next == x.name.size ==> r.installing)
      else r.installing
  {}

  // ----- every run

  /** Any number of leaders' transfers, everything they ever sent, one follower. */
  datatype System = System(senders: map<nat, Sending>, sent: set<Chunk>, follower: Follower)

  datatype Event =
    | Begin(i: nat, term: nat, name: Name)             // a leader starts, or switches to another snapshot
    | Send(i: nat)                                     // it sends its next chunk, or sends it again
    | Hear(i: nat, reply: Reply)                       // it gets a reply, however old
    | Deliver(chunk: Chunk, luck: Luck)                // any chunk ever sent, any number of times
    | InstallEnds(ok: bool)                            // the install goroutine is through
    | Advance(snap: nat, applied: nat)                 // the follower's own state moves on
    | Crash(applied: nat)                              // the follower restarts, maybe with less applied

  /** An install that ended well replaced the state, unless it had caught up meanwhile. */
  ghost function InstallDone(s: Follower, t: Transfer, ok: bool): Follower {
    var k := t.name.index;
    var s1 := s.(recv := Some(t.(progress := if ok then Installed else Failed)), file := []);
    if !ok || k <= s.snap || k <= s.applied then s1 else s1.(snap := k, applied := k)
  }

  ghost function Step(files: Files, size: nat, y: System, e: Event): System
    requires FilesOk(files) && size > 0
  {
    var s := y.follower;
    match e
    case Begin(i, term, name) => y.(senders := y.senders[i := Sending(term, name, 0)])
    case Send(i) =>
      if i in y.senders then y.(sent := y.sent + {NextChunk(files(y.senders[i].name), size, y.senders[i])}) else y
    case Hear(i, r) =>
      if i !in y.senders then y
      else if Follow(y.senders[i], r).None? then y.(senders := y.senders - {i})
      else y.(senders := y.senders[i := Follow(y.senders[i], r).value])
    case Deliver(c, luck) => if c in y.sent then y.(follower := Receive(s, c, luck).0) else y
    case InstallEnds(ok) =>
      if s.recv.Some? && s.recv.value.progress == Installing then
        y.(follower := InstallDone(s, s.recv.value, ok))
      else y
    case Advance(snap, applied) => y.(follower := s.(snap := Max(s.snap, snap), applied := Max(s.applied, applied)))
    case Crash(applied) => y.(follower := s.(recv := None, file := [], applied := Max(s.snap, Min(s.applied, applied))))
  }

  ghost function Run(files: Files, size: nat, y: System, events: seq<Event>, n: nat): System
    requires FilesOk(files) && size > 0 && n <= |events|
  {
    if n == 0 then y else Step(files, size, Run(files, size, y, events, n - 1), events[n - 1])
  }

  /** The receive file is what the named file begins with; it is the whole file
      while it is installed; every install was started on the whole file; and what
      counts as installed, the follower holds. */
  ghost predicate Ok(files: Files, s: Follower)
    requires FilesOk(files)
  {
    && (s.recv.Some? && (s.recv.value.progress == Receiving || s.recv.value.progress == Installing) ==>
          Prefix(files, s.recv.value, s.file) && (s.recv.value.progress == Installing ==> s.file == files(s.recv.value.name)))
    && (forall i :: 0 <= i < |s.installs| ==> s.installs[i].1 == files(s.installs[i].0))
    && (s.recv.Some? && s.recv.value.progress == Installed ==> s.recv.value.name.index <= s.snap || s.recv.value.name.index <= s.applied)
  }

  ghost predicate Prefix(files: Files, t: Transfer, file: Bytes)
    requires FilesOk(files)
  {
    t.written <= t.name.size && file == files(t.name)[..t.written]
  }

  lemma PrefixGrows(files: Files, t: Transfer, file: Bytes, c: Chunk)
    requires FilesOk(files) && Prefix(files, t, file) && Truthful(files, c) && c.name == t.name && c.offset == t.written
    ensures Prefix(files, t.(written := t.written + |c.data|), file + c.data)
  {
    var whole, w := files(t.name), t.written;
    assert whole[..w] + whole[w..w + |c.data|] == whole[..w + |c.data|];
  }

  lemma WriteOk(files: Files, s: Follower, t: Transfer, c: Chunk, luck: Luck)
    requires FilesOk(files) && Ok(files, s) && Truthful(files, c) && s.recv == Some(t)
    requires t.progress == Receiving && c.name == t.name
    ensures Ok(files, Write(s, t, c, luck).0)
  {
    if c.offset == t.written { PrefixGrows(files, t, s.file, c); }
  }

  lemma ReceiveOk(files: Files, s: Follower, c: Chunk, luck: Luck)
    requires FilesOk(files) && Ok(files, s) && Truthful(files, c)
    ensures Ok(files, Receive(s, c, luck).0)
  {
    if c.term >= s.term {
      var s1 := s.(term := c.term);
      if s.recv.Some? && s.recv.value.name == c.name {
        if s.recv.value.progress == Receiving { WriteOk(files, s1, s.recv.value, c, luck); }
      } else {
        var t := Transfer(c.name, 0, Receiving);
        WriteOk(files, s1.(recv := Some(t), file := []), t, c, luck);
      }
    }
  }

  ghost predicate SystemOk(files: Files, y: System)
    requires FilesOk(files)
  {
    && Ok(files, y.follower) && (forall c :: c in y.sent ==> Truthful(files, c))
    && (forall i :: i in y.senders ==> y.senders[i].off <= y.senders[i].name.size)
  }

  lemma StepOk(files: Files, size: nat, y: System, e: Event)
    requires FilesOk(files) && size > 0 && SystemOk(files, y)
    ensures SystemOk(files, Step(files, size, y, e))
  {
    match e
    case Send(i) => if i in y.senders { SenderTruthful(files, size, y.senders[i], Plain(0, 0)); }
    case Hear(i, r) => if i in y.senders { SenderTruthful(files, size, y.senders[i], r); }
    case Deliver(c, luck) => if c in y.sent { ReceiveOk(files, y.follower, c, luck); }
    case _ =>
  }

  /** Over every run of any leaders, transfers and deliveries: the receive file is a
      prefix of the file its name stands for, and every install there ever was
      started on the whole file. */
  lemma {:induction false} RunOk(files: Files, size: nat, y: System, events: seq<Event>, n: nat)
    requires FilesOk(files) && size > 0 && n <= |events|
    requires y.senders == map[] && y.sent == {} && y.follower.recv == None && y.follower.installs == []
    ensures SystemOk(files, Run(files, size, y, events, n))
  {
    if n > 0 {
      RunOk(files, size, y, events, n - 1);
      StepOk(files, size, Run(files, size, y, events, n - 1), events[n - 1]);
    }
  }

  /** Over every run, a follower says that a snapshot is installed only if its state, or its
      own snapshot, includes it. */
  lemma InstalledIsHeld(files: Files, size: nat, y: System, events: seq<Event>, n: nat)
    requires FilesOk(files) && size > 0 && n < |events| && events[n].Deliver?
    requires y.senders == map[] && y.sent == {} && y.follower.recv == None && y.follower.installs == []
    ensures var s, c := Run(files, size, y, events, n).follower, events[n].chunk;
      Receive(s, c, events[n].luck).1.installed ==> c.name.index <= s.snap || c.name.index <= s.applied
  {
    RunOk(files, size, y, events, n);
  }

  // ----- a transfer that nothing disturbs

  const GOOD := Luck(true, true, true, true)

  /** `k` rounds of sending the next chunk and following the reply. */
  ghost function Exchange(files: Files, size: nat, s: Follower, x: Sending, k: nat): (Follower, Sending)
    requires FilesOk(files) && size > 0
    decreases k
  {
    if k == 0 then (s, x)
    else
      var (s1, r) := Receive(s, NextChunk(files(x.name), size, x), GOOD);
      if Follow(x, r).None? then (s1, x) else Exchange(files, size, s1, Follow(x, r).value, k - 1)
  }

  /** The follower has the first `x.off` bytes, or can begin. */
  ghost predicate InStep(files: Files, s: Follower, x: Sending)
    requires FilesOk(files)
  {
    && s.term <= x.term && x.off <= x.name.size && !(x.name.index <= s.snap || x.name.index <= s.applied)
    && if x.off == 0 && !(s.recv.Some? && s.recv.value.name == x.name) then s.recv.Some? ==> s.recv.value.progress != Installing
       else s.recv == Some(Transfer(x.name, x.off, Receiving)) && s.file == files(x.name)[..x.off]
  }

  /** One round: the rest of the file is there and its install begun, or the next `size`
      bytes are. */
  lemma RoundMeans(files: Files, size: nat, s: Follower, x: Sending, s1: Follower, r: Reply)
    requires FilesOk(files) && size > 0 && InStep(files, s, x) && Receive(s, NextChunk(files(x.name), size, x), GOOD) == (s1, r)
    ensures x.off + size >= x.name.size ==>
      s1 == s.(term := x.term, recv := Some(Transfer(x.name, x.name.size, Installing)), file := files(x.name),
               installs := s.installs + [(x.name, files(x.name))]) && Follow(x, r) == Some(x.(off := x.name.size))
    ensures x.off + size < x.name.size ==>
      s1.installs == s.installs && s1.applied == s.applied && s1.snap == s.snap
      && Follow(x, r) == Some(x.(off := x.off + size)) && InStep(files, s1, x.(off := x.off + size))
  {
    var c, whole := NextChunk(files(x.name), size, x), files(x.name);
    assert whole[..x.off] + c.data == whole[..x.off + |c.data|] && whole[..x.name.size] == whole;
    if x.off + size >= x.name.size { CompleteMeans(s, c, GOOD); }
    else if InHand(s, c, Receiving) { ContinueMeans(s, c, GOOD); }
    else { StartMeans(s, c, GOOD); }
  }

  /** The whole file is received and its install begun. */
  ghost predicate AllThere(files: Files, s: Follower, x: Sending, s1: Follower, x1: Sending)
    requires FilesOk(files)
  {
    && s1.recv == Some(Transfer(x.name, x.name.size, Installing)) && s1.file == files(x.name) && s1.term == x.term
    && s1.installs == s.installs + [(x.name, files(x.name))] && x1 == x.(off := x.name.size)
    && s1.snap == s.snap && s1.applied == s.applied
  }

  /** Undisturbed, a transfer gets there after some number of rounds. */
  lemma {:induction false} TransferEnds(files: Files, size: nat, s: Follower, x: Sending) returns (k: nat)
    requires FilesOk(files) && size > 0 && InStep(files, s, x)
    ensures var (s1, x1) := Exchange(files, size, s, x, k); AllThere(files, s, x, s1, x1)
    decreases x.name.size - x.off
  {
    var (s1, r) := Receive(s, NextChunk(files(x.name), size, x), GOOD);
    RoundMeans(files, size, s, x, s1, r);
    var x1 := Follow(x, r).value;
    if x.off + size >= x.name.size {
      k := 1;
      assert Exchange(files, size, s1, x1, 0) == (s1, x1);
    } else {
      var rest := TransferEnds(files, size, s1, x1);
      k := rest + 1;
    }
  }

  /** Once the install ends well, the follower holds the snapshot, and the sender hears so
      and stops. */
  lemma TransferHeard(files: Files, size: nat, s: Follower, x: Sending, s1: Follower, x1: Sending)
    requires FilesOk(files) && size > 0 && AllThere(files, s, x, s1, x1) && !(x.name.index <= s.snap || x.name.index <= s.applied)
    ensures var s2 := InstallDone(s1, s1.recv.value, true); var r := Receive(s2, NextChunk(files(x.name), size, x1), GOOD).1;
      s2.snap == s2.applied == x.name.index && r.installed && Follow(x1, r) == None
  {}

  // ----- the two ends, updated in place

  class Sender {
    const term: nat
    const name: Name
    const file: Bytes
    const size: nat
    var off: nat

    ghost predicate Valid()
      reads this
    {
      size > 0 && |file| == name.size && off <= name.size
    }

    constructor (term: nat, name: Name, file: Bytes, size: nat)
      requires size > 0 && |file| == name.size
      ensures Valid() && off == 0 && this.term == term && this.name == name && this.file == file && this.size == size
    {
      this.term, this.name, this.file, this.size, off := term, name, file, size, 0;
    }

    /** Read the next chunk from the file. */
    method Next() returns (c: Chunk)
      requires Valid()
      ensures c == NextChunk(file, size, Sending(term, name, off))
      ensures c.term == term && c.name == name && c.offset == off && c.data == file[off..Min(off + size, name.size)]
      ensures c.done <==> off + size >= name.size
    {
      if off < name.size {
        var n := size;
        if off + n > name.size { n := name.size - off; }
        c := Chunk(term, name, off, file[off..off + n], off + n == name.size);
      } else {
        c := Chunk(term, name, off, [], true);
      }
    }

    /** Take a reply; `on` says whether the transfer goes on. */
    method OnReply(r: Reply) returns (on: bool)
      requires Valid()
      modifies this
      ensures Valid() && Follow(Sending(term, name, old(off)), r) == if on then Some(Sending(term, name, off)) else None
      ensures on <==> r.term <= term && !r.installed && !r.failed
      ensures on && (r.installing || r.busy) ==> off == name.size
      ensures on && !r.installing && !r.busy ==> off == if r.next <= name.size then r.next else 0
    {
      if r.term > term || r.installed || r.failed { return false; }
      if r.installing || r.busy {
        off := name.size;
      } else {
        off := if r.next > name.size then 0 else r.next;
      }
      on := true;
    }
  }

  class Receiver {
    var term: nat
    var snap: nat
    var applied: nat
    var recv: Option<Transfer>
    var file: Bytes
    ghost var installs: seq<(Name, Bytes)>

    ghost function S(): Follower
      reads this
    {
      Follower(term, snap, applied, recv, file, installs)
    }

    /** Handle one chunk; `started` tells the caller to run the install. */
    method HandleChunk(c: Chunk, luck: Luck) returns (r: Reply, started: bool)
      modifies this
      ensures (S(), r) == Receive(old(S()), c, luck)
      ensures started == (installs != old(installs))
      ensures r.installed ==>
        || (old(recv).Some? && old(recv).value == Transfer(c.name, old(recv).value.written, Installed))
        || c.name.index <= snap || c.name.index <= applied
    {
      r, started := Plain(term, 0), false;
      if c.term < term { return; }
      if c.term > term {
        term := c.term;
        if !luck.persisted { return; }
      }
      r := r.(term := term);
      var covered := c.name.index <= snap || c.name.index <= applied;
      if recv.Some? && recv.value.name == c.name {
        match recv.value.progress {
          case Installing => r := r.(installing := true); return;
          case Installed => r := r.(installed := true); return;
          case Failed => recv := None; r := r.(failed := true); return;
          case Receiving =>
        }
      } else {
        if covered { r := r.(installed := true); return; }
        if recv.Some? && recv.value.progress == Installing { r := r.(busy := true); return; }
        if c.offset != 0 { return; }
        recv, file := None, [];
        if !luck.created { return; }
        recv := Some(Transfer(c.name, 0, Receiving));
      }
      r, started := Append(c, luck);
    }

    method Append(c: Chunk, luck: Luck) returns (r: Reply, started: bool)
      requires recv.Some? && recv.value.progress == Receiving
      modifies `recv, `file, `installs
      ensures (S(), r) == Write(old(S()), old(recv.value), c, luck)
      ensures started == (installs != old(installs))
    {
      var t := recv.value;
      r, started := Plain(term, t.written), false;
      if c.offset != t.written || t.written + |c.data| > t.name.size { return; }
      if |c.data| > 0 {
        if !luck.written {
          recv, file := None, [];
          return r.(next := 0), false;
        }
      }
      file := file + c.data;
      t := t.(written := t.written + |c.data|);
      recv := Some(t);
      r := r.(next := t.written);
      if !c.done || t.written != t.name.size { return; }
      if !luck.spawned {
        recv := Some(t.(progress := Failed));
        return;
      }
      recv := Some(t.(progress := Installing));
      installs := installs + [(t.name, file)];
      r, started := r.(installing := true), true;
    }
  }
}
