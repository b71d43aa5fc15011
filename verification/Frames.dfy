/** Request frames of the binary protocol, as the event loop cuts them out of a
    connection's byte stream. */
module Frames {
  import opened Basics

  const MAX_CMD: nat := 0x29
  const MAX_KEY: nat := 1048576
  const MAX_VAL: nat := 67108864
  const MAX_BATCH: nat := 100000
  const MAX_BODY: nat := 0xFFFF_FFFF

  datatype Op = Put | Get | Del | Ping | MPut | MGet

  datatype Look = Incomplete(need: nat) | Refused | Complete(op: Op, size: nat)

  function Command(b: nat): Option<Op> {
    match b
    case 1 => Some(Put)
    case 2 => Some(Get)
    case 3 => Some(Del)
    case 4 => Some(Ping)
    case 6 => Some(MPut)
    case 7 => Some(MGet)
    case _ => None
  }

  function LE16(b: seq<Byte>, off: nat): nat
    requires off + 2 <= |b|
  {
    b[off] as nat + 256 * b[off + 1] as nat
  }

  function LE32(b: seq<Byte>, off: nat): nat
    requires off + 4 <= |b|
  {
    LE16(b, off) + 65536 * LE16(b, off + 2)
  }

  /** Walk over `left` entries of a batch from offset `off`. */
  function Entries(b: seq<Byte>, op: Op, off: nat, left: nat): Look
    decreases left
  {
    if left == 0 then
      if |b| < off then Incomplete(off) else Complete(op, off)
    else
      var header := if op == MPut then 10 else 2;
      if |b| < off + header then Incomplete(off + header)
      else
        var k, v := LE16(b, off), if op == MPut then LE32(b, off + 2) else 0;
        if k > MAX_KEY || v > MAX_VAL || off + header + k + v > MAX_BODY + 7 then Refused
        else Entries(b, op, off + header + k + v, left - 1)
  }

  /** The frame at the head of the unparsed bytes. */
  function Peek(b: seq<Byte>): Look {
    if |b| < 1 then Incomplete(0)
    else if b[0] as nat < 1 || b[0] as nat > MAX_CMD then Refused
    else if |b| < 7 then Incomplete(7)
    else
      var cmd, klen, vlen := Command(b[0] as nat), LE16(b, 1), LE32(b, 3);
      if cmd.None? then Refused
      else if cmd.value == MPut || cmd.value == MGet then
        if vlen == 0 || vlen > MAX_BATCH then Refused else Entries(b, cmd.value, 7, vlen)
      else if klen > MAX_KEY || vlen > MAX_VAL then Refused
      else if |b| < 7 + klen + vlen then Incomplete(7 + klen + vlen)
      else Complete(cmd.value, 7 + klen + vlen)
  }

  lemma {:induction false} EntriesGrow(b: seq<Byte>, more: seq<Byte>, op: Op, off: nat, left: nat)
    requires !Entries(b, op, off, left).Incomplete?
    ensures Entries(b + more, op, off, left) == Entries(b, op, off, left)
    decreases left
  {
    if left > 0 {
      var header := if op == MPut then 10 else 2;
      if off + header <= |b| {
        var k, v := LE16(b, off), if op == MPut then LE32(b, off + 2) else 0;
        if !(k > MAX_KEY || v > MAX_VAL || off + header + k + v > MAX_BODY + 7) {
          EntriesGrow(b, more, op, off + header + k + v, left - 1);
        }
      }
    }
  }

  /** Bytes that arrive later never change a frame that is already complete. */
  lemma PeekGrows(b: seq<Byte>, more: seq<Byte>)
    requires !Peek(b).Incomplete?
    ensures Peek(b + more) == Peek(b)
  {
    if |b| >= 7 {
      var cmd, vlen := Command(b[0] as nat), LE32(b, 3);
      if cmd.Some? && (cmd.value == MPut || cmd.value == MGet) && 0 < vlen <= MAX_BATCH {
        EntriesGrow(b, more, cmd.value, 7, vlen);
      }
    }
  }

  lemma {:induction false} EntriesSize(b: seq<Byte>, op: Op, off: nat, left: nat)
    requires Entries(b, op, off, left).Complete?
    ensures off <= Entries(b, op, off, left).size <= |b|
    decreases left
  {
    if left > 0 {
      var header := if op == MPut then 10 else 2;
      var k, v := LE16(b, off), if op == MPut then LE32(b, off + 2) else 0;
      EntriesSize(b, op, off + header + k + v, left - 1);
    }
  }

  lemma PeekSize(b: seq<Byte>)
    requires Peek(b).Complete?
    ensures 0 < Peek(b).size <= |b|
  {
    var cmd, vlen := Command(b[0] as nat), LE32(b, 3);
    if cmd.value == MPut || cmd.value == MGet { EntriesSize(b, cmd.value, 7, vlen); }
  }

  lemma {:induction false} EntriesOp(b: seq<Byte>, op: Op, off: nat, left: nat)
    ensures Entries(b, op, off, left).Complete? ==> Entries(b, op, off, left).op == op
    decreases left
  {
    if left > 0 {
      var header := if op == MPut then 10 else 2;
      if off + header <= |b| {
        var k, v := LE16(b, off), if op == MPut then LE32(b, off + 2) else 0;
        EntriesOp(b, op, off + header + k + v, left - 1);
      }
    }
  }

  lemma PeekOp(b: seq<Byte>)
    requires Peek(b).Complete?
    ensures |b| >= 7 && 1 <= b[0] as nat <= MAX_CMD && Command(b[0] as nat) == Some(Peek(b).op)
  {
    var cmd, vlen := Command(b[0] as nat), LE32(b, 3);
    if cmd.value == MPut || cmd.value == MGet { EntriesOp(b, cmd.value, 7, vlen); }
  }

  /** The decoder of the event loop: nothing is copied, entries are walked in place. */
  method Decode(b: seq<Byte>) returns (r: Look)
    ensures r == Peek(b)
  {
    if |b| < 1 { return Incomplete(0); }
    if b[0] as nat < 1 || b[0] as nat > MAX_CMD { return Refused; }
    if |b| < 7 { return Incomplete(7); }
    var cmd, klen, vlen := Command(b[0] as nat), LE16(b, 1), LE32(b, 3);
    if cmd.None? { return Refused; }
    if cmd.value == MPut || cmd.value == MGet {
      r := DecodeBatch(b, cmd.value, vlen);
    } else {
      if klen > MAX_KEY || vlen > MAX_VAL { return Refused; }
      if |b| < 7 + klen + vlen { return Incomplete(7 + klen + vlen); }
      r := Complete(cmd.value, 7 + klen + vlen);
    }
  }

  method DecodeBatch(b: seq<Byte>, op: Op, count: nat) returns (r: Look)
    requires |b| >= 7
    ensures r == if count == 0 || count > MAX_BATCH then Refused else Entries(b, op, 7, count)
  {
    if count == 0 || count > MAX_BATCH { return Refused; }
    var off: nat := 7;
    for i := 0 to count
      invariant Entries(b, op, 7, count) == Entries(b, op, off, count - i)
    {
      var header := if op == MPut then 10 else 2;
      if |b| < off + header { return Incomplete(off + header); }
      var k, v := LE16(b, off), if op == MPut then LE32(b, off + 2) else 0;
      if k > MAX_KEY || v > MAX_VAL { return Refused; }
      off := off + header + k + v;
      if off - 7 > MAX_BODY { return Refused; }
    }
    if |b| < off { return Incomplete(off); }
    r := Complete(op, off);
  }

  // ----- the frames of a whole stream

  type Peeker = seq<Byte> -> Look

  ghost predicate Steady(peek: Peeker) {
    forall b, more :: !peek(b).Incomplete? ==> peek(b + more) == peek(b)
  }

  lemma PeekSteady()
    ensures Steady(Peek)
  {
    forall b: seq<Byte>, more | !Peek(b).Incomplete? ensures Peek(b + more) == Peek(b) { PeekGrows(b, more); }
  }

  /** Where the `n`-th frame of the stream ends, if it has that many. */
  ghost function End(peek: Peeker, s: seq<Byte>, n: nat): (r: Option<nat>)
    ensures r.Some? ==> r.value <= |s|
  {
    if n == 0 then Some(0)
    else
      var p := End(peek, s, n - 1);
      if p.None? then None
      else
        var f := peek(s[p.value..]);
        if f.Complete? && p.value + f.size <= |s| then Some(p.value + f.size) else None
  }

  /** The command of frame `n`, counted from 0. */
  ghost function OpAt(peek: Peeker, s: seq<Byte>, n: nat): Op
    requires End(peek, s, n + 1).Some?
  {
    peek(s[End(peek, s, n).value..]).op
  }

  /** A stream that grows keeps the frames it had. */
  lemma {:induction false} EndGrows(peek: Peeker, s: seq<Byte>, more: seq<Byte>, n: nat)
    requires Steady(peek) && End(peek, s, n).Some?
    ensures End(peek, s + more, n) == End(peek, s, n)
    ensures n > 0 ==> OpAt(peek, s + more, n - 1) == OpAt(peek, s, n - 1)
  {
    if n > 0 {
      EndGrows(peek, s, more, n - 1);
      var p := End(peek, s, n - 1).value;
      assert (s + more)[p..] == s[p..] + more;
    }
  }
}
