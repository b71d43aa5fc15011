/** What clients send: the encoding of requests as frames, and that the event loop cuts out
    of a stream exactly these. */
module FrameCodec {
  import opened Basics
  import opened Frames

  /** One entry of a batch; of a read only the key is sent. */
  datatype Item = Item(key: Bytes, value: Bytes, ttl: Bytes)

  /** A batch has a key length in its header that nobody reads. */
  datatype Request = Single(op: Op, key: Bytes, value: Bytes) | Batch(op: Op, unused: nat, items: seq<Item>)

  function Code(op: Op): Byte {
    match op
    case Put => 1
    case Get => 2
    case Del => 3
    case Ping => 4
    case MPut => 6
    case MGet => 7
  }

  /** Little-endian, 16 and 32 bits. */
  function Two(n: nat): (b: Bytes)
    ensures |b| == 2
  {
    [(n % 256) as Byte, (n / 256 % 256) as Byte]
  }

  function Four(n: nat): (b: Bytes)
    ensures |b| == 4
  {
    Two(n % 65536) + Two(n / 65536)
  }

  ghost predicate ItemOk(op: Op, e: Item) {
    |e.key| < 65536 && |e.value| <= 67108864 && if op == MPut then |e.ttl| == 4 else e.value == e.ttl == []
  }

  ghost predicate ItemsOk(op: Op, es: seq<Item>) { forall e :: e in es ==> ItemOk(op, e) }

  function EncodeItem(op: Op, e: Item): Bytes {
    if op == MPut then Two(|e.key|) + (Four(|e.value|) + (e.ttl + (e.key + e.value))) else Two(|e.key|) + e.key
  }

  /** The entries one behind the other, each encoded by `enc`. */
  function InRow(enc: Item -> Bytes, es: seq<Item>): Bytes {
    if es == [] then [] else enc(es[0]) + InRow(enc, es[1..])
  }

  function Encoder(op: Op): Item -> Bytes { e => EncodeItem(op, e) }

  function EncodeItems(op: Op, es: seq<Item>): Bytes { InRow(Encoder(op), es) }

  ghost predicate RequestOk(q: Request) {
    match q
    case Single(op, key, value) => op != MPut && op != MGet && |key| < 65536 && |value| <= 67108864
    case Batch(op, unused, items) =>
      && (op == MPut || op == MGet) && unused < 65536 && 0 < |items| <= 100000 && ItemsOk(op, items)
      && |EncodeItems(op, items)| <= 0xFFFF_FFFF
  }

  /** Seven bytes, and what follows them. */
  function Framed(op: Op, k: nat, v: nat, rest: Bytes): (b: Bytes)
    ensures |b| == 7 + |rest|
  {
    [Code(op)] + (Two(k) + (Four(v) + rest))
  }

  function Encode(q: Request): Bytes {
    match q
    case Single(op, key, value) => Framed(op, |key|, |value|, key + value)
    case Batch(op, unused, items) => Framed(op, unused, |items|, EncodeItems(op, items))
  }

  // ----- numbers in a buffer

  /** `x` stands in `b` at offset `off`. */
  ghost predicate At(b: Bytes, off: nat, x: Bytes) { off + |x| <= |b| && b[off..off + |x|] == x }

  lemma AtBoth(b: Bytes, off: nat, x: Bytes, y: Bytes)
    ensures At(b, off, x + y) <==> At(b, off, x) && At(b, off + |x|, y)
  {
    var n, m := |x|, |x| + |y|;
    if off + m <= |b| {
      assert b[off..off + m] == b[off..off + n] + b[off + n..off + m];
      if b[off..off + m] == x + y {
        assert b[off..off + n] == b[off..off + m][..n] == x && b[off + n..off + m] == b[off..off + m][n..] == y;
      }
    }
  }

  lemma TwoAt(b: Bytes, off: nat, n: nat)
    requires n < 65536 && off + 2 <= |b|
    ensures At(b, off, Two(n)) <==> LE16(b, off) == n
  {
    var lo, hi := b[off] as nat, b[off + 1] as nat;
    assert b[off..off + 2] == [b[off], b[off + 1]];
    if lo + 256 * hi == n { assert n % 256 == lo && n / 256 == hi; }
  }

  lemma FourAt(b: Bytes, off: nat, n: nat)
    requires n < 0x1_0000_0000 && off + 4 <= |b|
    ensures At(b, off, Four(n)) <==> LE32(b, off) == n
  {
    var lo, hi := LE16(b, off), LE16(b, off + 2);
    AtBoth(b, off, Two(n % 65536), Two(n / 65536));
    TwoAt(b, off, n % 65536);
    TwoAt(b, off + 2, n / 65536);
    if lo + 65536 * hi == n { assert n % 65536 == lo && n / 65536 == hi; }
  }

  lemma NumbersFit(b: Bytes, off: nat)
    ensures off + 2 <= |b| ==> LE16(b, off) < 65536
    ensures off + 4 <= |b| ==> LE32(b, off) < 0x1_0000_0000
  {}

  // ----- the walk over the length fields of a batch

  function Header(op: Op): nat { if op == MPut then 10 else 2 }

  function ValueLength(b: Bytes, op: Op, off: nat): nat
    requires off + Header(op) <= |b|
  {
    if op == MPut then LE32(b, off + 2) else 0
  }

  /** The length fields at `off` are those of `e`. */
  ghost predicate Reads(b: Bytes, op: Op, off: nat, e: Item) {
    off + Header(op) <= |b| && LE16(b, off) == |e.key| && ValueLength(b, op, off) == |e.value| <= MAX_VAL
  }

  function Next(op: Op, off: nat, e: Item): nat { off + Header(op) + |e.key| + |e.value| }

  /** From `off` on stand the length fields of `es`, each where the one before it says, up to `end`. */
  ghost predicate Laid(b: Bytes, op: Op, off: nat, es: seq<Item>, end: nat)
    decreases |es|
  {
    if es == [] then off == end
    else Reads(b, op, off, es[0]) && Laid(b, op, Next(op, off, es[0]), es[1..], end)
  }

  lemma {:induction false} LaidUpTo(b: Bytes, op: Op, off: nat, es: seq<Item>, end: nat)
    requires Laid(b, op, off, es, end)
    ensures off <= end
    decreases |es|
  {
    if es != [] { LaidUpTo(b, op, Next(op, off, es[0]), es[1..], end); }
  }

  lemma Walk(b: Bytes, op: Op, off: nat, left: nat, e: Item)
    requires left > 0 && Reads(b, op, off, e) && Next(op, off, e) <= MAX_BODY + 7
    ensures Entries(b, op, off, left) == Entries(b, op, Next(op, off, e), left - 1)
  {
    NumbersFit(b, off);
  }

  /** A batch that is all there is found complete, at its end. */
  lemma {:induction false} LaidComplete(b: Bytes, op: Op, off: nat, es: seq<Item>, end: nat)
    requires Laid(b, op, off, es, end) && end <= |b| && end <= MAX_BODY + 7
    ensures Entries(b, op, off, |es|) == Complete(op, end)
    decreases |es|
  {
    if es != [] {
      LaidUpTo(b, op, Next(op, off, es[0]), es[1..], end);
      Walk(b, op, off, |es|, es[0]);
      LaidComplete(b, op, Next(op, off, es[0]), es[1..], end);
    }
  }

  /** One that is not asks for more, and for no more than all of it. */
  lemma {:induction false} LaidPartial(w: Bytes, op: Op, off: nat, es: seq<Item>, end: nat, n: nat)
    requires Laid(w, op, off, es, end) && n < end <= |w| && end <= MAX_BODY + 7
    ensures var look := Entries(w[..n], op, off, |es|); look.Incomplete? && n < look.need <= end
    decreases |es|
  {
    if es != [] {
      LaidUpTo(w, op, Next(op, off, es[0]), es[1..], end);
      if off + Header(op) <= n {
        ReadsPart(w, op, off, es[0], n);
        Walk(w[..n], op, off, |es|, es[0]);
        LaidPartial(w, op, Next(op, off, es[0]), es[1..], end, n);
      }
    }
  }

  lemma ReadsPart(w: Bytes, op: Op, off: nat, e: Item, n: nat)
    requires Reads(w, op, off, e) && off + Header(op) <= n <= |w|
    ensures Reads(w[..n], op, off, e)
  {}

  /** An entry whose value is too long is refused, behind any number of good ones. */
  lemma {:induction false} LaidRefused(b: Bytes, off: nat, es: seq<Item>, end: nat, left: nat)
    requires Laid(b, MPut, off, es, end) && end <= MAX_BODY + 7 && |es| < left && end + 10 <= |b| && LE32(b, end + 2) > 67108864
    ensures Entries(b, MPut, off, left) == Refused
    decreases |es|
  {
    if es != [] {
      LaidUpTo(b, MPut, Next(MPut, off, es[0]), es[1..], end);
      Walk(b, MPut, off, left, es[0]);
      LaidRefused(b, Next(MPut, off, es[0]), es[1..], end, left - 1);
    }
  }

  // ----- entries and their encoding

  /** What stands at `off` is the entry, as its length fields say. */
  lemma ItemReads(b: Bytes, off: nat, op: Op, e: Item)
    requires ItemOk(op, e) && At(b, off, EncodeItem(op, e))
    ensures off + |EncodeItem(op, e)| == Next(op, off, e) && Reads(b, op, off, e)
  {
    if op == MPut {
      AtBoth(b, off, Two(|e.key|), Four(|e.value|) + (e.ttl + (e.key + e.value)));
      AtBoth(b, off + 2, Four(|e.value|), e.ttl + (e.key + e.value));
      FourAt(b, off + 2, |e.value|);
    } else {
      AtBoth(b, off, Two(|e.key|), e.key);
    }
    TwoAt(b, off, |e.key|);
  }

  /** `enc` puts the length fields in front. */
  ghost predicate Prefixes(enc: Item -> Bytes, b: Bytes, op: Op, es: seq<Item>) {
    forall e, off: nat :: e in es && At(b, off, enc(e)) ==> off + |enc(e)| == Next(op, off, e) && Reads(b, op, off, e)
  }

  lemma RowSplit(enc: Item -> Bytes, b: Bytes, off: nat, es: seq<Item>)
    requires es != [] && At(b, off, InRow(enc, es))
    ensures At(b, off, enc(es[0])) && At(b, off + |enc(es[0])|, InRow(enc, es[1..]))
    ensures |InRow(enc, es)| == |enc(es[0])| + |InRow(enc, es[1..])|
  {
    AtBoth(b, off, enc(es[0]), InRow(enc, es[1..]));
  }

  lemma {:induction false} RowLaid(enc: Item -> Bytes, b: Bytes, op: Op, off: nat, es: seq<Item>)
    requires Prefixes(enc, b, op, es) && At(b, off, InRow(enc, es))
    ensures Laid(b, op, off, es, off + |InRow(enc, es)|)
    decreases |es|
  {
    if es != [] {
      RowSplit(enc, b, off, es);
      assert Prefixes(enc, b, op, es[1..]);
      RowLaid(enc, b, op, Next(op, off, es[0]), es[1..]);
    }
  }

  lemma ItemsLaid(b: Bytes, op: Op, off: nat, es: seq<Item>)
    requires ItemsOk(op, es) && At(b, off, EncodeItems(op, es))
    ensures Laid(b, op, off, es, off + |EncodeItems(op, es)|)
  {
    var enc := Encoder(op);
    forall e, off: nat | e in es && At(b, off, enc(e)) ensures off + |enc(e)| == Next(op, off, e) && Reads(b, op, off, e) {
      ItemReads(b, off, op, e);
    }
    RowLaid(enc, b, op, off, es);
  }

  /** The entry that the length fields at `off` describe. */
  lemma ItemThere(b: Bytes, off: nat, op: Op) returns (e: Item)
    requires (op == MPut || op == MGet) && off + Header(op) <= |b|
    requires ValueLength(b, op, off) <= MAX_VAL && off + Header(op) + LE16(b, off) + ValueLength(b, op, off) <= |b|
    ensures ItemOk(op, e) && At(b, off, EncodeItem(op, e))
  {
    var k, v := LE16(b, off), ValueLength(b, op, off);
    NumbersFit(b, off);
    TwoAt(b, off, k);
    if op == MPut {
      e := Item(b[off + 10..off + 10 + k], b[off + 10 + k..off + 10 + k + v], b[off + 6..off + 10]);
      WholeThere(b, off, k, v, e);
    } else {
      e := Item(b[off + 2..off + 2 + k], [], []);
      AtBoth(b, off, Two(k), e.key);
    }
  }

  lemma WholeThere(b: Bytes, off: nat, k: nat, v: nat, e: Item)
    requires k < 65536 && v <= MAX_VAL && off + 10 + k + v <= |b| && LE32(b, off + 2) == v && At(b, off, Two(k))
    requires e == Item(b[off + 10..off + 10 + k], b[off + 10 + k..off + 10 + k + v], b[off + 6..off + 10])
    ensures At(b, off, Two(k) + (Four(v) + (e.ttl + (e.key + e.value))))
  {
    FourAt(b, off + 2, v);
    AtBoth(b, off + 10, e.key, e.value);
    AtBoth(b, off + 6, e.ttl, e.key + e.value);
    AtBoth(b, off + 2, Four(v), e.ttl + (e.key + e.value));
    AtBoth(b, off, Two(k), Four(v) + (e.ttl + (e.key + e.value)));
  }

  lemma WalkedOver(b: Bytes, op: Op, off: nat, left: nat)
    requires left > 0 && Entries(b, op, off, left).Complete?
    ensures off + Header(op) <= |b| && ValueLength(b, op, off) <= MAX_VAL
    ensures var next := off + Header(op) + LE16(b, off) + ValueLength(b, op, off);
      next <= |b| && next <= MAX_BODY + 7 && Entries(b, op, off, left) == Entries(b, op, next, left - 1)
  {
    EntriesSize(b, op, off + Header(op) + LE16(b, off) + ValueLength(b, op, off), left - 1);
  }

  /** A complete walk passes an entry and goes on behind it. */
  lemma Walked(b: Bytes, op: Op, off: nat, left: nat) returns (e: Item, x: Bytes)
    requires (op == MPut || op == MGet) && off <= MAX_BODY + 7 && left > 0 && Entries(b, op, off, left).Complete?
    ensures ItemOk(op, e) && x == Encoder(op)(e) && At(b, off, x) && off + |x| <= MAX_BODY + 7
    ensures Entries(b, op, off, left) == Entries(b, op, off + |x|, left - 1)
  {
    WalkedOver(b, op, off, left);
    e := ItemThere(b, off, op);
    x := EncodeItem(op, e);
    ItemReads(b, off, op, e);
  }

  ghost predicate RowAt(enc: Item -> Bytes, b: Bytes, off: nat, es: seq<Item>, end: nat) {
    At(b, off, InRow(enc, es)) && end == off + |InRow(enc, es)|
  }

  lemma RowMore(enc: Item -> Bytes, b: Bytes, off: nat, e: Item, rest: seq<Item>, end: nat)
    requires At(b, off, enc(e)) && RowAt(enc, b, off + |enc(e)|, rest, end)
    ensures RowAt(enc, b, off, [e] + rest, end)
  {
    assert ([e] + rest)[1..] == rest;
    AtBoth(b, off, enc(e), InRow(enc, rest));
  }

  lemma RowNone(enc: Item -> Bytes, b: Bytes, off: nat)
    requires off <= |b|
    ensures RowAt(enc, b, off, [], off)
  {}

  /** What is found complete is a batch of that many entries. */
  lemma {:induction false} ItemsThere(b: Bytes, op: Op, off: nat, left: nat, end: nat) returns (es: seq<Item>)
    requires (op == MPut || op == MGet) && off <= MAX_BODY + 7 && Entries(b, op, off, left) == Complete(op, end)
    ensures |es| == left && ItemsOk(op, es) && RowAt(Encoder(op), b, off, es, end) && end <= MAX_BODY + 7
    decreases left
  {
    if left == 0 {
      es := [];
      RowNone(Encoder(op), b, off);
    } else {
      var e, x := Walked(b, op, off, left);
      var rest := ItemsThere(b, op, off + |x|, left - 1, end);
      es := [e] + rest;
      RowMore(Encoder(op), b, off, e, rest, end);
    }
  }

  // ----- frames

  lemma CommandOf(op: Op)
    ensures Command(Code(op) as nat) == Some(op) && 1 <= Code(op) as nat <= MAX_CMD
  {}

  lemma HeadAt(b: Bytes, op: Op, k: nat, v: nat, rest: Bytes)
    requires k < 65536 && v < 0x1_0000_0000 && At(b, 0, Framed(op, k, v, rest))
    ensures |b| >= 7 && b[0] == Code(op) && LE16(b, 1) == k && LE32(b, 3) == v && At(b, 7, rest)
  {
    AtBoth(b, 0, [Code(op)], Two(k) + (Four(v) + rest));
    assert b[0..1][0] == b[0];
    AtBoth(b, 1, Two(k), Four(v) + rest);
    AtBoth(b, 3, Four(v), rest);
    TwoAt(b, 1, k);
    FourAt(b, 3, v);
  }

  lemma BatchAt(b: Bytes, op: Op, unused: nat, items: seq<Item>, x: Bytes)
    requires ItemsOk(op, items) && unused < 65536 && |items| <= MAX_BATCH && x == EncodeItems(op, items)
    requires At(b, 0, Framed(op, unused, |items|, x))
    ensures |b| >= 7 && b[0] == Code(op) && LE32(b, 3) == |items| && Laid(b, op, 7, items, 7 + |x|)
  {
    HeadAt(b, op, unused, |items|, x);
    ItemsLaid(b, op, 7, items);
  }

  lemma BatchFound(b: Bytes, op: Op, unused: nat, items: seq<Item>, x: Bytes)
    requires (op == MPut || op == MGet) && ItemsOk(op, items) && unused < 65536 && 0 < |items| <= MAX_BATCH
    requires x == EncodeItems(op, items) && |x| <= MAX_BODY && At(b, 0, Framed(op, unused, |items|, x))
    ensures Peek(b) == Complete(op, 7 + |x|)
  {
    CommandOf(op);
    BatchAt(b, op, unused, items, x);
    LaidComplete(b, op, 7, items, 7 + |x|);
  }

  lemma BatchPartial(w: Bytes, op: Op, unused: nat, items: seq<Item>, x: Bytes, n: nat)
    requires (op == MPut || op == MGet) && ItemsOk(op, items) && unused < 65536 && 0 < |items| <= MAX_BATCH
    requires x == EncodeItems(op, items) && |x| <= MAX_BODY && At(w, 0, Framed(op, unused, |items|, x)) && 0 < n < |w| == 7 + |x|
    ensures var look := Peek(w[..n]); look.Incomplete? && n < look.need <= |w|
  {
    CommandOf(op);
    BatchAt(w, op, unused, items, x);
    assert w[..n][0] == w[0];
    if n >= 7 {
      assert LE32(w[..n], 3) == LE32(w, 3);
      LaidPartial(w, op, 7, items, 7 + |x|, n);
    }
  }

  lemma SingleAt(b: Bytes, op: Op, key: Bytes, value: Bytes)
    requires op != MPut && op != MGet && |key| < 65536 && |value| <= MAX_VAL && At(b, 0, Framed(op, |key|, |value|, key + value))
    ensures Peek(b) == Complete(op, 7 + |key| + |value|)
    ensures forall n :: 0 < n < 7 + |key| + |value| ==> var look := Peek(b[..n]); look.Incomplete? && n < look.need <= 7 + |key| + |value|
  {
    CommandOf(op);
    HeadAt(b, op, |key|, |value|, key + value);
    forall n | 0 < n < 7 + |key| + |value|
      ensures var look := Peek(b[..n]); look.Incomplete? && n < look.need <= 7 + |key| + |value|
    {
      assert b[..n][0] == b[0];
      if n >= 7 { assert LE16(b[..n], 1) == LE16(b, 1) && LE32(b[..n], 3) == LE32(b, 3); }
    }
  }

  /** A request at the head of the stream is found, with its command and its length, whatever
      follows it. */
  lemma FrameFound(q: Request, rest: Bytes)
    requires RequestOk(q)
    ensures Peek(Encode(q) + rest) == Complete(q.op, |Encode(q)|)
  {
    var b := Encode(q) + rest;
    assert At(b, 0, Encode(q));
    match q
    case Single(op, key, value) => SingleAt(b, op, key, value);
    case Batch(op, unused, items) => BatchFound(b, op, unused, items, EncodeItems(op, items));
  }

  /** As long as it is not all there, the loop waits for more, never for more than it. */
  lemma FramePartial(q: Request, n: nat)
    requires RequestOk(q) && 0 < n < |Encode(q)|
    ensures var look := Peek(Encode(q)[..n]); look.Incomplete? && n < look.need <= |Encode(q)|
  {
    var w := Encode(q);
    assert At(w, 0, w);
    match q
    case Single(op, key, value) => SingleAt(w, op, key, value);
    case Batch(op, unused, items) => BatchPartial(w, op, unused, items, EncodeItems(op, items), n);
  }

  lemma CodeOf(c: Byte)
    requires Command(c as nat).Some?
    ensures Code(Command(c as nat).value) == c
  {}

  /** What is found is a request. */
  lemma FrameThere(b: Bytes) returns (q: Request)
    requires Peek(b).Complete?
    ensures RequestOk(q) && Encode(q) <= b && Peek(b) == Complete(q.op, |Encode(q)|)
  {
    PeekOp(b);
    PeekSize(b);
    CodeOf(b[0]);
    NumbersFit(b, 1);
    NumbersFit(b, 3);
    var op, k, v := Peek(b).op, LE16(b, 1), LE32(b, 3);
    var rest: Bytes;
    if op == MPut || op == MGet {
      var items := ItemsThere(b, op, 7, v, Peek(b).size);
      q, rest := Batch(op, k, items), EncodeItems(op, items);
    } else {
      q, rest := Single(op, b[7..7 + k], b[7 + k..7 + k + v]), b[7..7 + k + v];
      assert q.key + q.value == rest;
    }
    HeadThere(b, op, k, v, rest);
    assert b[0..|Encode(q)|] == Encode(q);
  }

  lemma HeadThere(b: Bytes, op: Op, k: nat, v: nat, rest: Bytes)
    requires |b| >= 7 && b[0] == Code(op) && LE16(b, 1) == k < 65536 && LE32(b, 3) == v < 0x1_0000_0000 && At(b, 7, rest)
    ensures At(b, 0, Framed(op, k, v, rest))
  {
    TwoAt(b, 1, k);
    FourAt(b, 3, v);
    assert At(b, 0, [Code(op)]);
    AtBoth(b, 3, Four(v), rest);
    AtBoth(b, 1, Two(k), Four(v) + rest);
    AtBoth(b, 0, [Code(op)], Two(k) + (Four(v) + rest));
  }

  /** Neither a part of a request nor one with more behind it is refused. */
  lemma RequestNotRefused(b: Bytes, q: Request, w: Bytes)
    requires RequestOk(q) && w == Encode(q) && (b <= w || w <= b)
    ensures !Peek(b).Refused?
  {
    if w <= b {
      FrameFound(q, b[|w|..]);
      assert w + b[|w|..] == b;
    } else if |b| > 0 {
      FramePartial(q, |b|);
      assert w[..|b|] == b;
    }
  }

  /** Refused as soon as it shows: an unknown command, a value that is too long, a batch of no
      entries or too many. */
  lemma RefusedWhen(b: Bytes)
    ensures |b| > 0 && (b[0] == 0 || b[0] as nat > 41) ==> Peek(b) == Refused
    ensures |b| >= 7 && b[0] !in {1, 2, 3, 4, 6, 7} ==> Peek(b) == Refused
    ensures |b| >= 7 && b[0] in {1, 2, 3, 4} && LE32(b, 3) > 67108864 ==> Peek(b) == Refused
    ensures |b| >= 7 && b[0] in {6, 7} && (LE32(b, 3) == 0 || LE32(b, 3) > 100000) ==> Peek(b) == Refused
  {}

  // ----- streams

  /** `w` is a frame of command `op`, whatever follows it. */
  ghost predicate IsFrame(peek: Peeker, w: Bytes, op: Op) { forall rest :: peek(w + rest) == Complete(op, |w|) }

  ghost function Concat(ws: seq<Bytes>): Bytes { if ws == [] then [] else Concat(ws[..|ws| - 1]) + ws[|ws| - 1] }

  ghost predicate FrameIs(peek: Peeker, s: Bytes, i: nat, op: Op) { End(peek, s, i + 1).Some? && OpAt(peek, s, i) == op }

  lemma FrameNext(peek: Peeker, s: Bytes, n: nat, p: nat, w: Bytes, op: Op, rest: Bytes)
    requires IsFrame(peek, w, op) && p <= |s| && s[p..] == w + rest && End(peek, s, n) == Some(p)
    ensures End(peek, s, n + 1) == Some(p + |w|) && FrameIs(peek, s, n, op)
  {}

  lemma SplitLast(ws: seq<Bytes>, n: nat, more: Bytes, s: Bytes, head: Bytes)
    requires n + 1 == |ws| && s == Concat(ws) + more && head == Concat(ws[..n])
    ensures s == head + (ws[n] + more) && s[|head|..] == ws[n] + more && |Concat(ws)| == |head| + |ws[n]|
  {
    assert s == head + (ws[n] + more);
  }

  /** Frames one behind the other are cut apart again, in order. */
  lemma {:induction false} FramesCut(peek: Peeker, ws: seq<Bytes>, ops: seq<Op>, more: Bytes, s: Bytes)
    requires |ws| == |ops| && (forall i :: 0 <= i < |ws| ==> IsFrame(peek, ws[i], ops[i])) && s == Concat(ws) + more
    ensures End(peek, s, |ws|) == Some(|Concat(ws)|)
    ensures forall i :: 0 <= i < |ws| ==> FrameIs(peek, s, i, ops[i])
    decreases |ws|
  {
    if ws != [] {
      var n := |ws| - 1;
      var head, w, front := Concat(ws[..n]), ws[n], ops[..n];
      SplitLast(ws, n, more, s, head);
      FramesCut(peek, ws[..n], front, w + more, s);
      FrameNext(peek, s, n, |head|, w, ops[n], more);
      forall i | 0 <= i < |ws| ensures FrameIs(peek, s, i, ops[i]) {
        if i < n { assert FrameIs(peek, s, i, front[i]); }
      }
    }
  }

  lemma RequestIsFrame(q: Request, w: Bytes)
    requires RequestOk(q) && w == Encode(q)
    ensures IsFrame(Peek, w, q.op)
  {
    forall rest ensures Peek(w + rest) == Complete(q.op, |w|) { FrameFound(q, rest); }
  }

  /** So are requests: as many as were sent are found, with their commands. */
  lemma StreamCut(qs: seq<Request>, ws: seq<Bytes>, ops: seq<Op>, more: Bytes)
    requires |ws| == |qs| == |ops| && forall i :: 0 <= i < |qs| ==> RequestOk(qs[i]) && ws[i] == Encode(qs[i]) && ops[i] == qs[i].op
    ensures End(Peek, Concat(ws) + more, |qs|) == Some(|Concat(ws)|)
    ensures forall i :: 0 <= i < |qs| ==> FrameIs(Peek, Concat(ws) + more, i, ops[i])
  {
    forall i | 0 <= i < |qs| ensures IsFrame(Peek, ws[i], ops[i]) { RequestIsFrame(qs[i], ws[i]); }
    FramesCut(Peek, ws, ops, more, Concat(ws) + more);
  }
}
