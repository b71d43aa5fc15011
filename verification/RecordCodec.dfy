/** One record of the Raft log file, byte by byte. */
module RecordCodec {
  import opened Basics
  import opened RaftLog

  newtype Word = x: int | 0 <= x < 0x1_0000_0000

  /** The checksum is only assumed to be a function of the payload. */
  type Checksum = seq<Byte> -> Word

  const RECORD_HEADER := 8
  const FIXED_PAYLOAD := 17
  const MAX_PAYLOAD := 0x4000_0000

  // ----- little-endian integers

  function Pow256(k: nat): (p: nat)
    ensures p > 0
  {
    if k == 0 then 1 else 256 * Pow256(k - 1)
  }

  /** The low `k` bytes of `v`, lowest first. */
  function LE(k: nat, v: nat): (s: Bytes)
    ensures |s| == k
  {
    seq(k, i requires 0 <= i < k => ((v / Pow256(i)) % 256) as Byte)
  }

  function FromLE(s: Bytes): nat {
    if s == [] then 0 else s[0] as nat + 256 * FromLE(s[1..])
  }

  lemma {:induction false} NextMultiple(d: nat, q: nat, q': nat)
    requires q < q'
    ensures d * q + d <= d * q'
    decreases q'
  {
    assert d * q' == d * (q' - 1) + d;
    if q < q' - 1 { NextMultiple(d, q, q' - 1); }
  }

  lemma {:induction false} DivUnique(v: nat, d: nat, q: nat, r: nat)
    requires v == d * q + r && r < d
    ensures v / d == q
  {
    var q', r' := v / d, v % d;
    assert v == d * q' + r' && 0 <= r' < d;
    if q < q' { NextMultiple(d, q, q'); } else if q' < q { NextMultiple(d, q', q); }
  }

  lemma {:induction false} DivTwice(v: nat, p: nat)
    requires p > 0
    ensures (v / 256) / p == v / (256 * p)
  {
    var q := v / 256;
    var a, b := q / p, q % p;
    assert q == p * a + b;
    assert v == 256 * (p * a + b) + v % 256 == (256 * p) * a + (256 * b + v % 256);
    assert 256 * b + v % 256 < 256 * p;
    DivUnique(v, 256 * p, a, 256 * b + v % 256);
  }

  lemma {:induction false} LEStep(k: nat, v: nat)
    requires k > 0
    ensures LE(k, v)[0] as nat == v % 256 && LE(k, v)[1..] == LE(k - 1, v / 256)
  {
    forall i | 0 <= i < k - 1 ensures LE(k, v)[1..][i] == LE(k - 1, v / 256)[i] {
      DivTwice(v, Pow256(i));
      assert LE(k, v)[i + 1] as nat == (v / Pow256(i + 1)) % 256;
    }
  }

  lemma {:induction false} LERoundTrip(k: nat, v: nat)
    requires v < Pow256(k)
    ensures FromLE(LE(k, v)) == v
  {
    if k > 0 {
      LEStep(k, v);
      assert v / 256 < Pow256(k - 1);
      LERoundTrip(k - 1, v / 256);
    }
  }

  lemma Digit(low: nat, high: nat)
    requires low < 256
    ensures (low + 256 * high) % 256 == low && (low + 256 * high) / 256 == high
  {}

  lemma ConsEqual(a: Bytes, b: Bytes)
    requires |a| == |b| > 0 && a[0] == b[0] && a[1..] == b[1..]
    ensures a == b
  {
    assert a == [a[0]] + a[1..] && b == [b[0]] + b[1..];
  }

  /** Writing what was read gives the bytes again. */
  lemma {:induction false} LEInverse(k: nat, b: Bytes)
    requires |b| == k
    ensures FromLE(b) < Pow256(k) && LE(k, FromLE(b)) == b
  {
    if k > 0 {
      LEInverse(k - 1, b[1..]);
      var v := FromLE(b);
      Digit(b[0] as nat, FromLE(b[1..]));
      LEStep(k, v);
      ConsEqual(LE(k, v), b);
    }
  }

  lemma {:induction false} Widths()
    ensures Pow256(4) == 0x1_0000_0000 && Pow256(8) == 0x1_0000_0000_0000_0000
  {
    assert Pow256(2) == 0x1_0000;
    assert Pow256(4) == 0x1_0000_0000;
    assert Pow256(6) == 0x1_0000_0000_0000;
  }

  // ----- records

  /** Fields of the width the record has for them. */
  predicate Fits(e: Entry) {
    && e.term < 0x1_0000_0000_0000_0000 && e.index < 0x1_0000_0000_0000_0000
    && FIXED_PAYLOAD + |e.command| <= MAX_PAYLOAD
  }

  function KindByte(k: Kind): Byte { if k == Normal then 0 else 1 }

  function Payload(e: Entry): (p: Bytes)
    ensures |p| == FIXED_PAYLOAD + |e.command|
  {
    LE(8, e.term) + LE(8, e.index) + [KindByte(e.kind)] + e.command
  }

  function Record(crc: Checksum, e: Entry): (r: Bytes)
    ensures |r| == RECORD_HEADER + FIXED_PAYLOAD + |e.command|
  {
    LE(4, |Payload(e)|) + LE(4, crc(Payload(e)) as nat) + Payload(e)
  }

  datatype Parse = End | Got(entry: Entry, next: nat)

  /** The record at offset `at`, unless the bytes there are short, of an impossible
      length or fail their checksum. */
  function ReadRecord(crc: Checksum, file: Bytes, at: nat): (r: Parse)
    ensures r.Got? ==> at < r.next <= |file|
  {
    if at + RECORD_HEADER > |file| then End
    else
      var n := FromLE(file[at..at + 4]);
      var sum := FromLE(file[at + 4..at + 8]);
      if n < FIXED_PAYLOAD || n > MAX_PAYLOAD || at + RECORD_HEADER + n > |file| then End
      else
        var p := file[at + 8..at + 8 + n];
        if crc(p) as nat != sum then End
        else
          Got(Entry(FromLE(p[..8]), FromLE(p[8..16]), if p[16] == 1 then Config else Normal, p[17..]), at + 8 + n)
  }

  lemma {:induction false} RecordParts(crc: Checksum, e: Entry)
    requires Fits(e)
    ensures var r := Record(crc, e);
      && FromLE(r[..4]) == |Payload(e)| && FromLE(r[4..8]) == crc(Payload(e)) as nat && r[8..] == Payload(e)
  {
    var p, r := Payload(e), Record(crc, e);
    Widths();
    LERoundTrip(4, |p|);
    LERoundTrip(4, crc(p) as nat);
    assert r[..4] == LE(4, |p|) && r[4..8] == LE(4, crc(p) as nat);
  }

  lemma {:induction false} PayloadParts(e: Entry)
    requires Fits(e)
    ensures var p := Payload(e);
      && FromLE(p[..8]) == e.term && FromLE(p[8..16]) == e.index && p[16] == KindByte(e.kind) && p[17..] == e.command
  {
    var p := Payload(e);
    Widths();
    LERoundTrip(8, e.term);
    LERoundTrip(8, e.index);
    assert p[..8] == LE(8, e.term) && p[8..16] == LE(8, e.index);
  }

  lemma {:induction false} Part(file: Bytes, at: nat, r: Bytes, i: nat, j: nat)
    requires at + |r| <= |file| && file[at..at + |r|] == r && i <= j <= |r|
    ensures file[at + i..at + j] == r[i..j]
  {
    forall k | 0 <= k < j - i ensures file[at + i..at + j][k] == r[i..j][k] {
      assert r[i + k] == file[at..at + |r|][i + k] == file[at + i + k];
    }
  }

  /** A complete record reads back as its entry. */
  lemma {:induction false} ReadBack(crc: Checksum, file: Bytes, at: nat, e: Entry)
    requires Fits(e) && at + |Record(crc, e)| <= |file| && file[at..at + |Record(crc, e)|] == Record(crc, e)
    ensures ReadRecord(crc, file, at) == Got(e, at + |Record(crc, e)|)
  {
    var p, r := Payload(e), Record(crc, e);
    RecordParts(crc, e);
    Part(file, at, r, 0, 4);
    Part(file, at, r, 4, 8);
    Part(file, at, r, 8, |r|);
    PayloadParts(e);
  }

  /** A record cut short is not read. */
  lemma {:induction false} ReadTorn(crc: Checksum, file: Bytes, at: nat, e: Entry)
    requires Fits(e) && at <= |file| < at + |Record(crc, e)| && file[at..] == Record(crc, e)[..|file| - at]
    ensures ReadRecord(crc, file, at) == End
  {
    if at + RECORD_HEADER <= |file| {
      RecordParts(crc, e);
      assert file[at..at + 4] == file[at..][..4] == Record(crc, e)[..4];
    }
  }

  lemma Slices(b: Bytes, i: nat, j: nat)
    requires i <= j <= |b|
    ensures b == b[..i] + b[i..j] + b[j..]
  {}

  lemma PayloadInverse(p: Bytes, e: Entry)
    requires |p| >= FIXED_PAYLOAD && p[16] <= 1
    requires e == Entry(FromLE(p[..8]), FromLE(p[8..16]), if p[16] == 1 then Config else Normal, p[17..])
    ensures Payload(e) == p
  {
    LEInverse(8, p[..8]);
    LEInverse(8, p[8..16]);
    Slices(p, 8, 16);
    assert p[16..] == [p[16]] + p[17..];
  }

  /** Conversely, whatever is read is a record: its length and checksum are right, and the
      entry written again gives the same bytes. */
  lemma ReadSound(crc: Checksum, file: Bytes, at: nat)
    requires ReadRecord(crc, file, at).Got? && file[at + 24] <= 1
    ensures var r := ReadRecord(crc, file, at); at + 24 < r.next && file[at..r.next] == Record(crc, r.entry)
  {
    var r := ReadRecord(crc, file, at);
    var rec, p := file[at..r.next], file[at + 8..r.next];
    PayloadInverse(p, r.entry);
    LEInverse(4, file[at..at + 4]);
    LEInverse(4, file[at + 4..at + 8]);
    Part(file, at, rec, 0, 4);
    Part(file, at, rec, 4, 8);
    Part(file, at, rec, 8, |rec|);
    Slices(rec, 4, 8);
  }
}
