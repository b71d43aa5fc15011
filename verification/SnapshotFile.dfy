/** The snapshot file: a header, records with their checksums, and a trailer. */
module SnapshotFile {
  import opened Basics
  import opened RaftLog
  import RC = RecordCodec
  import opened Membership

  type Word = RC.Word

  const HEADER: nat := 4096
  const HEADER_CRC: nat := 4092
  const HEADER_FIXED: nat := 72
  const TRAILER: nat := 16
  const MARKER: nat := 0xFFFF_FFFF
  const MAX_RECORD: nat := 0x4000_0000
  const TWO32: nat := 0x1_0000_0000
  const TWO64: nat := 0x1_0000_0000_0000_0000

  // ----- integers and checksums

  /** Fixed-width integers: how they are written and read. */
  datatype Ints = Ints(put4: nat -> Bytes, get4: Bytes -> nat, put8: nat -> Bytes, get8: Bytes -> nat)

  /** Writing and reading are inverse on each width. */
  ghost predicate Inverse(k: nat, limit: nat, put: nat -> Bytes, get: Bytes -> nat) {
    && (forall v: nat {:trigger put(v)} :: |put(v)| == k)
    && (forall v: nat {:trigger put(v)} :: v < limit ==> get(put(v)) == v)
    && (forall b {:trigger get(b)} :: |b| == k ==> get(b) < limit && put(get(b)) == b)
  }

  ghost predicate IntsOk(n: Ints) { Inverse(4, TWO32, n.put4, n.get4) && Inverse(8, TWO64, n.put8, n.get8) }

  lemma WidthInverse(k: nat, put: nat -> Bytes, get: Bytes -> nat)
    requires put == (v => RC.LE(k, v)) && get == (b => RC.FromLE(b))
    ensures Inverse(k, RC.Pow256(k), put, get)
  {
    forall v: nat | v < RC.Pow256(k) ensures get(put(v)) == v { RC.LERoundTrip(k, v); }
    forall b: Bytes | |b| == k ensures get(b) < RC.Pow256(k) && put(get(b)) == b { RC.LEInverse(k, b); }
  }

  function LittleEndian(): Ints {
    Ints((v: nat) => RC.LE(4, v), b => RC.FromLE(b), (v: nat) => RC.LE(8, v), b => RC.FromLE(b))
  }

  lemma LittleEndianOk()
    ensures IntsOk(LittleEndian())
  {
    RC.Widths();
    WidthInverse(4, (v: nat) => RC.LE(4, v), b => RC.FromLE(b));
    WidthInverse(8, (v: nat) => RC.LE(8, v), b => RC.FromLE(b));
  }

  /** A running checksum: only its incrementality is assumed. */
  type Update = (nat, Bytes) -> nat

  ghost predicate Goes(u: Update, c: nat, a: Bytes, b: Bytes) { u(u(c, a), b) == u(c, a + b) }

  ghost predicate UpdateOk(u: Update) {
    && (forall c: nat, b {:trigger u(c, b)} :: u(c, b) < TWO32) && u(0, []) == 0
    && (forall c: nat, a, b {:trigger Goes(u, c, a, b)} :: Goes(u, c, a, b))
  }

  /** The two parts of the format that are not fixed here. */
  datatype Format = Format(ints: Ints, update: Update)

  function Sum(f: Format, b: Bytes): nat { f.update(0, b) }

  /** Integers read back, and checksums are 32-bit words. */
  ghost predicate Coded(f: Format) { IntsOk(f.ints) && forall b {:trigger Sum(f, b)} :: Sum(f, b) < TWO32 }

  ghost predicate FormatOk(f: Format) { IntsOk(f.ints) && UpdateOk(f.update) }

  lemma FormatCoded(f: Format)
    requires FormatOk(f)
    ensures Coded(f)
  {}

  lemma SumGoes(f: Format, a: Bytes, b: Bytes)
    requires FormatOk(f)
    ensures f.update(Sum(f, a), b) == Sum(f, a + b)
  {
    assert Goes(f.update, 0, a, b);
  }

  // ----- the body

  ghost function Record(f: Format, r: Bytes): Bytes { f.ints.put4(|r|) + f.ints.put4(Sum(f, r)) + r }

  /** The first `n` records, one after the other. */
  ghost function Records(f: Format, recs: seq<Bytes>, n: nat): Bytes
    requires n <= |recs|
  {
    if n == 0 then [] else Records(f, recs, n - 1) + Record(f, recs[n - 1])
  }

  ghost function Count(f: Format, count: nat): Bytes { f.ints.put4(MARKER) + f.ints.put8(count) }

  ghost function Trailer(f: Format, count: nat): Bytes { Count(f, count) + f.ints.put4(Sum(f, Count(f, count))) }

  ghost function Body(f: Format, recs: seq<Bytes>): Bytes { Records(f, recs, |recs|) + Trailer(f, |recs|) }

  ghost predicate Small(recs: seq<Bytes>) { |recs| < TWO64 && forall i :: 0 <= i < |recs| ==> |recs[i]| < MAX_RECORD }

  lemma {:induction false} RecordsPrefix(f: Format, a: seq<Bytes>, b: seq<Bytes>, n: nat)
    requires n <= |a| && n <= |b| && forall i :: 0 <= i < n ==> a[i] == b[i]
    ensures Records(f, a, n) == Records(f, b, n)
  {
    if n > 0 { RecordsPrefix(f, a, b, n - 1); }
  }

  /** The records up to `n`, then the next one, then the rest. */
  lemma {:induction false} RecordsSplit(f: Format, recs: seq<Bytes>, n: nat) returns (rest: Bytes)
    requires n < |recs|
    ensures Body(f, recs) == Records(f, recs, n) + Record(f, recs[n]) + rest
    decreases |recs| - n
  {
    if n == |recs| - 1 {
      rest := Trailer(f, |recs|);
    } else {
      var more := RecordsSplit(f, recs, n + 1);
      rest := Record(f, recs[n + 1]) + more;
      var a, b := Records(f, recs, n), Record(f, recs[n]);
      assert (a + b) + Record(f, recs[n + 1]) + more == a + b + rest;
    }
  }

  // ----- reading

  /** What the header promises about the body. */
  datatype Promise = Promise(length: nat, sum: nat, count: nat)

  datatype Next = Got(rec: Bytes, at: nat) | Eof | Corrupt

  /** The record or trailer at offset `p`, `count` records having been read. */
  function ReadNext(f: Format, m: Promise, body: Bytes, p: nat, count: nat): (r: Next)
    ensures r.Got? ==> p < r.at <= |body|
  {
    if p + 4 > |body| then Corrupt
    else
      var n := f.ints.get4(body[p..p + 4]);
      if n == MARKER then
        if p + TRAILER > |body| || Sum(f, body[p..p + 12]) != f.ints.get4(body[p + 12..p + 16]) then Corrupt
        else
          var c := f.ints.get8(body[p + 4..p + 12]);
          if c != count || c != m.count || p + TRAILER != m.length || Sum(f, body[..p + TRAILER]) != m.sum then Corrupt else Eof
      else if n >= MAX_RECORD || p + 8 + n > |body| then Corrupt
      else
        var rec := body[p + 8..p + 8 + n];
        if Sum(f, rec) != f.ints.get4(body[p + 4..p + 8]) then Corrupt else Got(rec, p + 8 + n)
  }

  lemma Middle(a: Bytes, b: Bytes, c: Bytes)
    ensures (a + b + c)[|a|..|a| + |b|] == b
  {}

  lemma RecordFields(f: Format, r: Bytes)
    requires Coded(f) && |r| < MAX_RECORD
    ensures var e := Record(f, r);
      && |e| == 8 + |r| && f.ints.get4(e[..4]) == |r| && f.ints.get4(e[4..8]) == Sum(f, r) && e[8..] == r
  {
    var a, b := f.ints.put4(|r|), f.ints.put4(Sum(f, r));
    var e := Record(f, r);
    assert e[..4] == a && e[4..8] == b && e[8..] == r;
  }

  lemma TrailerFields(f: Format, count: nat)
    requires Coded(f) && count < TWO64
    ensures var t := Trailer(f, count);
      && |t| == TRAILER && f.ints.get4(t[..4]) == MARKER && f.ints.get8(t[4..12]) == count
      && t[..12] == Count(f, count) && f.ints.get4(t[12..16]) == Sum(f, Count(f, count))
  {
    var a, b, c := f.ints.put4(MARKER), f.ints.put8(count), f.ints.put4(Sum(f, Count(f, count)));
    var t := Trailer(f, count);
    assert t[..4] == a && t[4..12] == b && t[..12] == a + b && t[12..16] == c;
  }

  lemma ReadRecord(f: Format, m: Promise, body: Bytes, p: nat, count: nat, r: Bytes)
    requires Coded(f) && |r| < MAX_RECORD
    requires p + |Record(f, r)| <= |body| && body[p..p + |Record(f, r)|] == Record(f, r)
    ensures ReadNext(f, m, body, p, count) == Got(r, p + |Record(f, r)|)
  {
    var e := Record(f, r);
    RecordFields(f, r);
    RC.Part(body, p, e, 0, 4);
    RC.Part(body, p, e, 4, 8);
    RC.Part(body, p, e, 8, |e|);
  }

  lemma ReadTrailer(f: Format, m: Promise, body: Bytes, p: nat, count: nat)
    requires Coded(f) && count < TWO64 && m == Promise(|body|, Sum(f, body), count)
    requires p + |Trailer(f, count)| == |body| && body[p..] == Trailer(f, count)
    ensures ReadNext(f, m, body, p, count) == Eof
  {
    var t := Trailer(f, count);
    TrailerFields(f, count);
    assert body[p..p + |t|] == t && body[..p + |t|] == body;
    RC.Part(body, p, t, 0, 4);
    RC.Part(body, p, t, 4, 12);
    RC.Part(body, p, t, 0, 12);
    RC.Part(body, p, t, 12, 16);
  }

  ghost function PromiseOf(f: Format, recs: seq<Bytes>): Promise {
    Promise(|Body(f, recs)|, Sum(f, Body(f, recs)), |recs|)
  }

  /** Reading goes record by record, then finds the end: the marker is never taken
      for a record, nor a record for the marker. */
  lemma ReadBack(f: Format, recs: seq<Bytes>, n: nat)
    requires Coded(f) && Small(recs) && n <= |recs|
    ensures ReadNext(f, PromiseOf(f, recs), Body(f, recs), |Records(f, recs, n)|, n) ==
      if n < |recs| then Got(recs[n], |Records(f, recs, n + 1)|) else Eof
  {
    var m, body, front := PromiseOf(f, recs), Body(f, recs), Records(f, recs, n);
    if n < |recs| {
      var rest := RecordsSplit(f, recs, n);
      Middle(front, Record(f, recs[n]), rest);
      ReadRecord(f, m, body, |front|, n, recs[n]);
    } else {
      assert body[|front|..] == Trailer(f, n);
      ReadTrailer(f, m, body, |front|, n);
    }
  }

  /** Conversely, what is read is what the bytes encode. */
  lemma ReadSound(f: Format, m: Promise, body: Bytes, p: nat, count: nat)
    requires Coded(f) && p <= |body|
    ensures var r := ReadNext(f, m, body, p, count);
      && (r.Got? ==> |r.rec| < MAX_RECORD && body[p..r.at] == Record(f, r.rec))
      && (r == Eof ==> p + TRAILER <= |body| && body[p..p + TRAILER] == Trailer(f, count)
                       && m == Promise(p + TRAILER, Sum(f, body[..p + TRAILER]), count))
  {
    var r := ReadNext(f, m, body, p, count);
    if r.Got? {
      var n := |r.rec|;
      assert body[p..r.at] == body[p..p + 4] + body[p + 4..p + 8] + body[p + 8..r.at];
    } else if r == Eof {
      assert body[p..p + 12] == body[p..p + 4] + body[p + 4..p + 12];
      assert body[p..p + 16] == body[p..p + 12] + body[p + 12..p + 16];
    }
  }

  // ----- the header

  const MAGIC: seq<Byte> := [86, 88, 83, 78]
  const VERSION: nat := 1

  datatype Meta = Meta(kind: nat, index: nat, term: nat, configIndex: nat, id: nat, config: Configuration)

  datatype Opened = Ok(meta: Meta, promise: Promise) | Rejected

  type ConfigEncoder = Configuration -> Bytes

  /** The byte at offset `i` of the checksummed part of the header. */
  function HeaderByte(f: Format, m: Meta, p: Promise, cfg: Bytes, i: nat): Byte
    requires Coded(f)
  {
    if i < 4 then MAGIC[i]
    else if i < 8 then f.ints.put4(VERSION)[i - 4]
    else if i < 12 then f.ints.put4(m.kind)[i - 8]
    else if i < 16 then 0
    else if i < 24 then f.ints.put8(m.index)[i - 16]
    else if i < 32 then f.ints.put8(m.term)[i - 24]
    else if i < 40 then f.ints.put8(m.configIndex)[i - 32]
    else if i < 48 then f.ints.put8(m.id)[i - 40]
    else if i < 56 then f.ints.put8(p.length)[i - 48]
    else if i < 60 then f.ints.put4(p.sum)[i - 56]
    else if i < 68 then f.ints.put8(p.count)[i - 60]
    else if i < 72 then f.ints.put4(|cfg|)[i - 68]
    else if i < HEADER_FIXED + |cfg| then cfg[i - HEADER_FIXED]
    else 0
  }

  function Front(f: Format, m: Meta, p: Promise, cfg: Bytes): (h: Bytes)
    requires Coded(f)
    ensures |h| == HEADER_CRC
  {
    seq(HEADER_CRC, i requires 0 <= i < HEADER_CRC => HeaderByte(f, m, p, cfg, i))
  }

  function EncodeHeader(f: Format, enc: ConfigEncoder, m: Meta, p: Promise): Bytes
    requires Coded(f)
  {
    Front(f, m, p, enc(m.config)) + f.ints.put4(Sum(f, Front(f, m, p, enc(m.config))))
  }

  /** Read a header, checking everything it says about itself. */
  function DecodeHeader(f: Format, dec: Bytes -> Option<Configuration>, h: Bytes): Opened {
    if |h| < HEADER || h[..4] != MAGIC || Sum(f, h[..HEADER_CRC]) != f.ints.get4(h[HEADER_CRC..HEADER]) then Rejected
    else if f.ints.get4(h[4..8]) != VERSION then Rejected
    else
      var kind, cl := f.ints.get4(h[8..12]), f.ints.get4(h[68..72]);
      if (kind != 1 && kind != 2) || HEADER_FIXED + cl > HEADER_CRC then Rejected
      else
        var cfg := dec(h[HEADER_FIXED..HEADER_FIXED + cl]);
        if cfg.None? then Rejected
        else
          Ok(Meta(kind, f.ints.get8(h[16..24]), f.ints.get8(h[24..32]), f.ints.get8(h[32..40]), f.ints.get8(h[40..48]), cfg.value),
             Promise(f.ints.get8(h[48..56]), f.ints.get4(h[56..60]), f.ints.get8(h[60..68])))
  }

  predicate MetaFits(m: Meta) {
    (m.kind == 1 || m.kind == 2) && m.index < TWO64 && m.term < TWO64 && m.configIndex < TWO64 && m.id < TWO64
  }

  predicate PromiseFits(p: Promise) { p.length < TWO64 && p.sum < TWO32 && p.count < TWO64 }

  /** The fields of a header are where the reader looks for them. */
  lemma FrontFields(f: Format, m: Meta, p: Promise, cfg: Bytes)
    requires Coded(f) && HEADER_FIXED + |cfg| <= HEADER_CRC
    ensures var h := Front(f, m, p, cfg);
      && h[..4] == MAGIC && h[4..8] == f.ints.put4(VERSION) && h[8..12] == f.ints.put4(m.kind)
      && h[16..24] == f.ints.put8(m.index) && h[24..32] == f.ints.put8(m.term) && h[32..40] == f.ints.put8(m.configIndex)
      && h[40..48] == f.ints.put8(m.id) && h[48..56] == f.ints.put8(p.length) && h[56..60] == f.ints.put4(p.sum)
      && h[60..68] == f.ints.put8(p.count) && h[68..72] == f.ints.put4(|cfg|) && h[72..72 + |cfg|] == cfg
  {}

  lemma HeaderRoundTrip(f: Format, enc: ConfigEncoder, dec: Bytes -> Option<Configuration>, m: Meta, p: Promise)
    requires Coded(f) && MetaFits(m) && PromiseFits(p)
    requires HEADER_FIXED + |enc(m.config)| <= HEADER_CRC && dec(enc(m.config)) == Some(m.config)
    ensures |EncodeHeader(f, enc, m, p)| == HEADER
    ensures DecodeHeader(f, dec, EncodeHeader(f, enc, m, p)) == Ok(m, p)
  {
    var cfg := enc(m.config);
    var front, h := Front(f, m, p, cfg), EncodeHeader(f, enc, m, p);
    FrontFields(f, m, p, cfg);
    assert h[..HEADER_CRC] == front && h[HEADER_CRC..HEADER] == f.ints.put4(Sum(f, front));
    assert forall i, j :: 0 <= i <= j <= HEADER_CRC ==> h[i..j] == front[i..j];
  }

  // ----- the whole file

  ghost function File(f: Format, enc: ConfigEncoder, m: Meta, recs: seq<Bytes>): Bytes
    requires Coded(f)
  {
    EncodeHeader(f, enc, m, PromiseOf(f, recs)) + Body(f, recs)
  }

  /** Open a snapshot file: its header must be in order and its size as promised. */
  function Open(f: Format, dec: Bytes -> Option<Configuration>, file: Bytes): (r: Opened)
    ensures r.Ok? ==> |file| == HEADER + r.promise.length
  {
    if |file| < HEADER then Rejected
    else
      var r := DecodeHeader(f, dec, file[..HEADER]);
      if r.Ok? && |file| != HEADER + r.promise.length then Rejected else r
  }

  /** What can be written at all: small records, a body of 64-bit length, a
      configuration that fits the header. */
  ghost predicate Writable(f: Format, enc: ConfigEncoder, m: Meta, recs: seq<Bytes>) {
    && (forall i :: 0 <= i < |recs| ==> |recs[i]| < MAX_RECORD) && |Body(f, recs)| < TWO64
    && MetaFits(m) && HEADER_FIXED + |enc(m.config)| <= HEADER_CRC
  }

  lemma {:induction false} RecordsLength(f: Format, recs: seq<Bytes>, n: nat)
    requires Coded(f) && n <= |recs|
    ensures |Records(f, recs, n)| >= 8 * n
  {
    if n > 0 { RecordsLength(f, recs, n - 1); }
  }

  lemma WritableSmall(f: Format, recs: seq<Bytes>)
    requires Coded(f) && (forall i :: 0 <= i < |recs| ==> |recs[i]| < MAX_RECORD) && |Body(f, recs)| < TWO64
    ensures Small(recs) && PromiseFits(PromiseOf(f, recs))
  {
    RecordsLength(f, recs, |recs|);
  }

  /** A written file opens to its own metadata, and its body is its records. */
  lemma FileOpens(f: Format, enc: ConfigEncoder, dec: Bytes -> Option<Configuration>, m: Meta, recs: seq<Bytes>)
    requires Coded(f) && Writable(f, enc, m, recs) && dec(enc(m.config)) == Some(m.config)
    ensures var file := File(f, enc, m, recs);
      |file| >= HEADER && file[HEADER..] == Body(f, recs) && Open(f, dec, file) == Ok(m, PromiseOf(f, recs))
  {
    var h := EncodeHeader(f, enc, m, PromiseOf(f, recs));
    WritableSmall(f, recs);
    HeaderRoundTrip(f, enc, dec, m, PromiseOf(f, recs));
    assert File(f, enc, m, recs)[..HEADER] == h;
  }

  /** Cut short or extended, it does not open. */
  lemma ResizedRejected(f: Format, enc: ConfigEncoder, dec: Bytes -> Option<Configuration>, m: Meta, recs: seq<Bytes>,
                        n: nat, more: Bytes)
    requires Coded(f) && Writable(f, enc, m, recs) && dec(enc(m.config)) == Some(m.config)
    requires n <= |File(f, enc, m, recs)| && n + |more| != |File(f, enc, m, recs)| && (n < |File(f, enc, m, recs)| ==> more == [])
    ensures Open(f, dec, File(f, enc, m, recs)[..n] + more) == Rejected
  {
    var file := File(f, enc, m, recs);
    FileOpens(f, enc, dec, m, recs);
    var other := file[..n] + more;
    if |other| >= HEADER { assert other[..HEADER] == file[..HEADER]; }
  }

  // ----- writing

  class SnapshotWriter {
    const f: Format
    var body: Bytes
    var crc: nat
    var n: nat
    var count: nat
    ghost var recs: seq<Bytes>

    ghost predicate Valid()
      reads this
    {
      && FormatOk(f) && |recs| == count && (forall i :: 0 <= i < |recs| ==> |recs[i]| < MAX_RECORD)
      && body == Records(f, recs, |recs|) && crc == Sum(f, body) && n == |body|
    }

    constructor (f: Format)
      requires FormatOk(f)
      ensures Valid() && recs == [] && this.f == f
    {
      this.f := f;
      body, crc, n, count, recs := [], 0, 0, 0, [];
    }

    method WriteBody(b: Bytes)
      requires FormatOk(f) && crc == Sum(f, body) && n == |body|
      modifies `body, `crc, `n
      ensures body == old(body) + b && crc == Sum(f, body) && n == |body|
    {
      SumGoes(f, body, b);
      crc := f.update(crc, b);
      n := n + |b|;
      body := body + b;
    }

    /** Append one record, unless it is too large. */
    method Write(rec: Bytes) returns (ok: bool)
      requires Valid()
      modifies this
      ensures Valid() && ok == (|rec| < MAX_RECORD) && recs == if ok then old(recs) + [rec] else old(recs)
    {
      if |rec| >= MAX_RECORD { return false; }
      ghost var before := body;
      WriteBody(f.ints.put4(|rec|) + f.ints.put4(f.update(0, rec)));
      WriteBody(rec);
      assert body == before + Record(f, rec);
      RecordsPrefix(f, recs, recs + [rec], |recs|);
      recs := recs + [rec];
      count := count + 1;
      ok := true;
    }

    /** Write the trailer; the header that goes before the body promises what was
        written. */
    method Finish() returns (p: Promise)
      requires Valid()
      modifies this
      ensures recs == old(recs) && body == Body(f, recs) && p == PromiseOf(f, recs)
    {
      var mark := f.ints.put4(MARKER) + f.ints.put8(count);
      WriteBody(mark + f.ints.put4(f.update(0, mark)));
      p := Promise(n, crc, count);
    }

    /** The finished file, unless its configuration does not fit the header. */
    method FinishFile(enc: ConfigEncoder, m: Meta) returns (file: Option<Bytes>)
      requires Valid()
      modifies this
      ensures recs == old(recs) && file.Some? == (HEADER_FIXED + |enc(m.config)| <= HEADER_CRC)
      ensures FormatOk(f) && Coded(f) && (file.Some? ==> file.value == File(f, enc, m, recs))
    {
      FormatCoded(f);
      var p := Finish();
      if HEADER_FIXED + |enc(m.config)| > HEADER_CRC { return None; }
      file := Some(EncodeHeader(f, enc, m, p) + body);
    }
  }

  // ----- reading a whole file

  datatype Item = Rec(payload: Bytes) | End | Bad

  function ItemOf(n: Next): Item {
    match n
    case Got(rec, _) => Rec(rec)
    case Eof => End
    case Corrupt => Bad
  }

  /** The pieces of a trailer that was read in two goes. */
  lemma TrailerPieces(body: Bytes, at: nat)
    requires at + TRAILER <= |body|
    ensures var head, tail := body[at..at + 4], body[at + 4..at + 16];
      head + tail[..8] == body[at..at + 12] && tail[..8] == body[at + 4..at + 12] && tail[8..] == body[at + 12..at + 16]
  {
    var tail := body[at + 4..at + 16];
    RC.Part(body, at + 4, tail, 0, 8);
    RC.Part(body, at + 4, tail, 8, 12);
    assert body[at..at + 12] == body[at..at + 4] + body[at + 4..at + 12];
  }

  lemma OneMoreRecord(f: Format, body: Bytes, at: nat, read: nat, got: seq<Bytes>, rec: Bytes)
    requires at <= read <= |body| && body[..at] == Records(f, got, |got|) && body[at..read] == Record(f, rec)
    ensures body[..read] == Records(f, got + [rec], |got| + 1)
  {
    RecordsPrefix(f, got, got + [rec], |got|);
    assert body[..read] == body[..at] + body[at..read];
  }

  lemma AllRecords(f: Format, body: Bytes, at: nat, read: nat, got: seq<Bytes>)
    requires at <= read <= |body| && body[..at] == Records(f, got, |got|) && body[at..read] == Trailer(f, |got|)
    ensures body[..read] == Body(f, got)
  {
    assert body[..read] == body[..at] + body[at..read];
  }

  class SnapshotReader {
    const f: Format
    const promise: Promise
    const body: Bytes
    var read: nat
    var crc: nat
    var count: nat
    var done: bool
    ghost var got: seq<Bytes>

    /** Everything read so far is exactly the encoding of the records returned. */
    ghost predicate Valid()
      reads this
    {
      && FormatOk(f) && read <= |body| && crc == Sum(f, body[..read]) && count == |got|
      && (!done ==> body[..read] == Records(f, got, |got|))
      && (done ==> body[..read] == Body(f, got) && promise == PromiseOf(f, got))
    }

    constructor (f: Format, promise: Promise, body: Bytes)
      requires FormatOk(f)
      ensures Valid() && !done && got == [] && read == 0 && this.f == f && this.promise == promise && this.body == body
    {
      this.f, this.promise, this.body := f, promise, body;
      read, crc, count, done, got := 0, 0, 0, false, [];
    }

    method ReadFull(k: nat) returns (ok: bool, b: Bytes)
      requires FormatOk(f) && read <= |body| && crc == Sum(f, body[..read])
      modifies `read, `crc
      ensures ok == (old(read) + k <= |body|) && read <= |body| && crc == Sum(f, body[..read])
      ensures ok ==> read == old(read) + k && b == body[old(read)..read]
      ensures !ok ==> read == old(read)
    {
      if read + k > |body| { return false, []; }
      b := body[read..read + k];
      assert body[..read + k] == body[..read] + b;
      SumGoes(f, body[..read], b);
      crc := f.update(crc, b);
      read := read + k;
      ok := true;
    }

    /** The next record, or the end once trailer, count, length and checksum agree. */
    method Next() returns (r: Item)
      requires Valid()
      modifies this
      ensures old(done) ==> r == End
      ensures !old(done) ==> r == ItemOf(ReadNext(f, promise, body, old(read), old(count)))
      ensures r.Rec? ==> Valid() && !done && got == old(got) + [r.payload] && old(read) < read
      ensures r == End ==> Valid() && done && got == old(got)
    {
      if done { return End; }
      ghost var at := read;
      var ok, head := ReadFull(4);
      if !ok { return Bad; }
      var n := f.ints.get4(head);
      if n == MARKER {
        r := ReadEnd(at, head);
      } else {
        r := ReadRest(at, n);
        if r.Rec? {
          OneMoreRecord(f, body, at, read, got, r.payload);
          got, count := got + [r.payload], count + 1;
        }
      }
    }

    /** Behind the marker. */
    method ReadEnd(ghost at: nat, head: Bytes) returns (r: Item)
      requires FormatOk(f) && read == at + 4 <= |body| && crc == Sum(f, body[..read]) && head == body[at..read] && count == |got|
      requires f.ints.get4(head) == MARKER && body[..at] == Records(f, got, |got|)
      modifies `read, `crc, `done
      ensures r == ItemOf(ReadNext(f, promise, body, at, count)) && !r.Rec?
      ensures r == End ==> Valid() && done
    {
      FormatCoded(f);
      ReadSound(f, promise, body, at, count);
      var ok, tail := ReadFull(12);
      if !ok { return Bad; }
      var mark := head + tail[..8];
      TrailerPieces(body, at);
      if f.update(0, mark) != f.ints.get4(tail[8..]) { return Bad; }
      var c := f.ints.get8(tail[..8]);
      if c != count || c != promise.count || read != promise.length || crc != promise.sum { return Bad; }
      AllRecords(f, body, at, read, got);
      done := true;
      r := End;
    }

    /** Behind a record's length. */
    method ReadRest(ghost at: nat, n: nat) returns (r: Item)
      requires FormatOk(f) && read == at + 4 <= |body| && crc == Sum(f, body[..read])
      requires n == f.ints.get4(body[at..at + 4]) && n != MARKER
      modifies `read, `crc
      ensures r == ItemOf(ReadNext(f, promise, body, at, count)) && r != End
      ensures r.Rec? ==> read == at + 8 + n <= |body| && crc == Sum(f, body[..read]) && body[at..read] == Record(f, r.payload)
    {
      FormatCoded(f);
      ReadSound(f, promise, body, at, count);
      if n >= MAX_RECORD { return Bad; }
      var ok, sum := ReadFull(4);
      if !ok { return Bad; }
      var rec;
      ok, rec := ReadFull(n);
      if !ok { return Bad; }
      if f.update(0, rec) != f.ints.get4(sum) { return Bad; }
      r := Rec(rec);
    }
  }

  /** Body and promise are those of `recs`. */
  ghost predicate Whole(f: Format, promise: Promise, body: Bytes, recs: seq<Bytes>) {
    Small(recs) && body == Body(f, recs) && promise == PromiseOf(f, recs)
  }

  /** One more item, which is the next of `want` if that is what the body holds. */
  method ReadItem(reader: SnapshotReader, ghost want: seq<Bytes>) returns (item: Item)
    requires reader.Valid() && !reader.done
    modifies reader
    ensures item.Rec? ==> reader.Valid() && !reader.done && reader.got == old(reader.got) + [item.payload] && old(reader.read) < reader.read
    ensures item == End ==> reader.Valid() && reader.done && reader.got == old(reader.got)
    ensures Whole(reader.f, reader.promise, reader.body, want) && old(reader.got) <= want ==>
      item == if |old(reader.got)| < |want| then Rec(want[|old(reader.got)|]) else End
  {
    FormatCoded(reader.f);
    if Whole(reader.f, reader.promise, reader.body, want) && reader.got <= want {
      Expected(reader.f, want, reader.got, reader.body, reader.read);
    }
    item := reader.Next();
  }

  /** Read to the end: accepted is exactly an encoding, and `want` is read from its own. */
  method ReadAll(reader: SnapshotReader, ghost want: seq<Bytes>) returns (ok: bool, recs: seq<Bytes>)
    requires reader.Valid() && !reader.done && reader.got == [] && |reader.body| == reader.promise.length
    modifies reader
    ensures ok ==> reader.body == Body(reader.f, recs) && reader.promise == PromiseOf(reader.f, recs)
    ensures Whole(reader.f, reader.promise, reader.body, want) ==> ok && recs == want
  {
    recs := [];
    ghost var whole := Whole(reader.f, reader.promise, reader.body, want);
    while true
      invariant reader.Valid() && !reader.done && recs == reader.got && (whole ==> recs <= want)
      decreases |reader.body| - reader.read
    {
      var item := ReadItem(reader, want);
      if item == Bad { return false, []; }
      if item == End {
        assert reader.body[..reader.read] == reader.body;
        return true, recs;
      }
      recs := recs + [item.payload];
    }
  }

  /** Read a whole file and check everything: accepted are exactly the encodings of
      some records, and `want`, if the file encodes it, is what is read. */
  method VerifyFile(f: Format, dec: Bytes -> Option<Configuration>, file: Bytes, ghost want: seq<Bytes>)
    returns (r: Opened, recs: seq<Bytes>)
    requires FormatOk(f)
    ensures r.Ok? ==> r == Open(f, dec, file) && |file| >= HEADER && file[HEADER..] == Body(f, recs) && r.promise == PromiseOf(f, recs)
    ensures Encodes(f, dec, file, want) ==> r.Ok? && recs == want
  {
    r := Open(f, dec, file);
    if r == Rejected { return r, []; }
    var reader := new SnapshotReader(f, r.promise, file[HEADER..]);
    var ok;
    ok, recs := ReadAll(reader, want);
    if !ok { r := Rejected; }
  }

  /** The file opens and its body is the encoding of `recs`. */
  ghost predicate Encodes(f: Format, dec: Bytes -> Option<Configuration>, file: Bytes, recs: seq<Bytes>) {
    var r := Open(f, dec, file);
    r.Ok? && Whole(f, r.promise, file[HEADER..], recs)
  }

  /** The next item of an encoding of `want`, once `got` was read. */
  lemma Expected(f: Format, want: seq<Bytes>, got: seq<Bytes>, body: Bytes, read: nat)
    requires Coded(f) && Small(want) && got <= want && body == Body(f, want) && read <= |body|
    requires body[..read] == Records(f, got, |got|)
    ensures ItemOf(ReadNext(f, PromiseOf(f, want), body, read, |got|)) == if |got| < |want| then Rec(want[|got|]) else End
  {
    RecordsPrefix(f, got, want, |got|);
    ReadBack(f, want, |got|);
  }

  /** Write records to a file and read it back: the same records, in order, then the
      end, with the same metadata. */
  method WriteThenRead(f: Format, enc: ConfigEncoder, dec: Bytes -> Option<Configuration>, m: Meta, recs: seq<Bytes>)
    returns (r: Opened, out: seq<Bytes>)
    requires FormatOk(f) && Coded(f) && Writable(f, enc, m, recs) && dec(enc(m.config)) == Some(m.config)
    ensures r == Ok(m, PromiseOf(f, recs)) && out == recs
  {
    var w := new SnapshotWriter(f);
    for i := 0 to |recs|
      invariant fresh(w) && w.Valid() && w.f == f && w.recs == recs[..i]
    {
      var ok := w.Write(recs[i]);
    }
    assert recs[..|recs|] == recs;
    var file := w.FinishFile(enc, m);
    FileOpens(f, enc, dec, m, recs);
    WritableSmall(f, recs);
    r, out := VerifyFile(f, dec, file.value, recs);
  }
}
