/**
 * The write-ahead log of package wal: framed records, replay, and truncation of
 * a torn tail.  The checksum is any function of the payload.
 */
module Wal {
  import opened Bytes
  import opened RaftTypes
  import opened LittleEndian

  datatype Record = Record(seqNum: nat, kind: Byte, key: Bytes, value: Bytes)

  const HeaderSize: nat := 8

  // ------------------------------------------------------------------ records

  function Payload(rec: Record): (p: Bytes)
    ensures |p| == 17 + |rec.key| + |rec.value|
  {
    [rec.kind] + Put(8, rec.seqNum) + Put(4, |rec.key|) + rec.key + Put(4, |rec.value|) + rec.value
  }

  /** What the fixed-width fields can hold. */
  predicate Fits(rec: Record) {
    rec.seqNum < TwoTo64 && 17 + |rec.key| + |rec.value| < TwoTo32
  }

  function Encode(crc: Checksum, rec: Record): (b: Bytes)
    ensures |b| == HeaderSize + 17 + |rec.key| + |rec.value|
  {
    Put(4, crc(Payload(rec))) + Put(4, |Payload(rec)|) + Payload(rec)
  }

  /** decodePayload; bytes past the value are ignored. */
  function DecodePayload(p: Bytes): Option<Record> {
    if |p| < 13 then None
    else
      var keyLen := Get(p[9..13]);
      if |p| - 13 < keyLen then None
      else
        var off := 13 + keyLen;
        if |p| - off < 4 then None
        else
          var valLen := Get(p[off..off + 4]);
          if |p| - off - 4 < valLen then None
          else Some(Record(Get(p[1..9]), p[0], p[13..off], p[off + 4..off + 4 + valLen]))
  }

  /** The first record of b and its size on disk; None for a torn or foreign one. */
  function DecodeOne(crc: Checksum, b: Bytes): (r: Option<(Record, nat)>)
    ensures r.Some? ==> HeaderSize < r.value.1 <= |b|
  {
    if |b| < HeaderSize then None
    else
      var length := Get(b[4..8]);
      if length > |b| - HeaderSize then None
      else
        var p := b[HeaderSize..HeaderSize + length];
        if crc(p) != Get(b[0..4]) then None
        else match DecodePayload(p)
          case None => None
          case Some(rec) => Some((rec, HeaderSize + length))
  }

  /** Every record before the first malformed one. */
  function Records(crc: Checksum, b: Bytes): seq<Record>
    decreases |b|
  {
    match DecodeOne(crc, b)
    case None => []
    case Some((rec, n)) => [rec] + Records(crc, b[n..])
  }

  /** Where they end. */
  function ValidLen(crc: Checksum, b: Bytes): (n: nat)
    ensures n <= |b|
    decreases |b|
  {
    match DecodeOne(crc, b)
    case None => 0
    case Some((_, n)) => n + ValidLen(crc, b[n..])
  }

  function EncodeAll(crc: Checksum, recs: seq<Record>): Bytes {
    if recs == [] then [] else Encode(crc, recs[0]) + EncodeAll(crc, recs[1..])
  }

  predicate AllFit(recs: seq<Record>) { forall i :: 0 <= i < |recs| ==> Fits(recs[i]) }

  // ------------------------------------------------------------------- one record

  lemma PayloadSlices(rec: Record)
    ensures var p, k := Payload(rec), 13 + |rec.key|;
            && p[0] == rec.kind && p[1..9] == Put(8, rec.seqNum) && p[9..13] == Put(4, |rec.key|) && p[13..k] == rec.key
            && p[k..k + 4] == Put(4, |rec.value|) && p[k + 4..] == rec.value
  {
    hide Put;
  }

  lemma DecodeEncodedPayload(rec: Record)
    requires Fits(rec)
    ensures DecodePayload(Payload(rec)) == Some(rec)
  {
    hide Put, Get, Payload;
    var p, k := Payload(rec), 13 + |rec.key|;
    PayloadSlices(rec);
    GetPut64(rec.seqNum);
    GetPut32(|rec.key|);
    GetPut32(|rec.value|);
    assert p[k + 4..k + 4 + |rec.value|] == p[k + 4..];
  }

  /** A record read back, whatever follows it. */
  lemma DecodeEncoded(crc: Checksum, rec: Record, rest: Bytes)
    requires Fits(rec)
    ensures DecodeOne(crc, Encode(crc, rec) + rest) == Some((rec, |Encode(crc, rec)|))
  {
    hide Put, Get, Payload, DecodePayload;
    var b, p := Encode(crc, rec) + rest, Payload(rec);
    assert b[0..4] == Put(4, crc(p)) && b[4..8] == Put(4, |p|) && b[8..8 + |p|] == p;
    GetPut32(crc(p));
    GetPut32(|p|);
    DecodeEncodedPayload(rec);
  }

  /** A record cut short is never read. */
  lemma DecodeTorn(crc: Checksum, rec: Record, cut: nat)
    requires Fits(rec) && cut < |Encode(crc, rec)|
    ensures DecodeOne(crc, Encode(crc, rec)[..cut]).None?
  {
    hide Put, Get, Payload, DecodePayload;
    if cut >= HeaderSize {
      var b, p := Encode(crc, rec), Payload(rec);
      assert b[4..8] == Put(4, |p|);
      assert b[..cut][4..8] == b[4..8];
      GetPut32(|p|);
    }
  }

  /** Reading the first record looks at no byte past it. */
  lemma DecodeLocal(crc: Checksum, b: Bytes, rest: Bytes)
    requires DecodeOne(crc, b).Some?
    ensures DecodeOne(crc, b[..DecodeOne(crc, b).value.1] + rest) == DecodeOne(crc, b)
  {
    hide Get, DecodePayload;
    var n := DecodeOne(crc, b).value.1;
    var c := b[..n] + rest;
    assert c[0..4] == b[0..4] && c[4..8] == b[4..8] && c[HeaderSize..n] == b[HeaderSize..n];
  }

  lemma PayloadOnly(p: Bytes)
    requires DecodePayload(p).Some?
    ensures DecodePayload(p).value.seqNum < TwoTo64 && Payload(DecodePayload(p).value) <= p
  {
    hide Put, Get;
    var rec := DecodePayload(p).value;
    var off := 13 + |rec.key|;
    PutGet64(p[1..9]);
    PutGet32(p[9..13]);
    PutGet32(p[off..off + 4]);
    assert p[..off + 4 + |rec.value|] == [p[0]] + p[1..9] + p[9..13] + p[13..off] + p[off..off + 4] + p[off + 4..off + 4 + |rec.value|];
  }

  lemma PayloadPrefix(p: Bytes, rec: Record)
    requires rec.seqNum < TwoTo64 && |p| < TwoTo32 && Payload(rec) <= p
    ensures DecodePayload(p) == Some(rec)
  {
    hide Put, Get, Payload;
    var e, k := Payload(rec), 13 + |rec.key|;
    PayloadSlices(rec);
    assert p[..|e|] == e;
    assert p[1..9] == e[1..9] && p[9..13] == e[9..13] && p[13..k] == e[13..k] && p[k..k + 4] == e[k..k + 4] && p[k + 4..|e|] == e[k + 4..];
    GetPut64(rec.seqNum);
    GetPut32(|rec.key|);
    GetPut32(|rec.value|);
  }

  /** What the first n bytes must be for a record to be read from them. */
  predicate Framed(crc: Checksum, b: Bytes, rec: Record, n: nat) {
    && HeaderSize <= n <= |b| && n - HeaderSize < TwoTo32 && rec.seqNum < TwoTo64
    && b[0..4] == Put(4, crc(b[HeaderSize..n])) && b[4..8] == Put(4, n - HeaderSize) && Payload(rec) <= b[HeaderSize..n]
  }

  /** A record is read exactly from a frame whose checksum and length are right and that begins with its payload. */
  lemma DecodeExact(crc: Checksum, b: Bytes, rec: Record, n: nat)
    ensures DecodeOne(crc, b) == Some((rec, n)) <==> Framed(crc, b, rec, n)
  {
    hide Put, Get, Payload, DecodePayload;
    if Framed(crc, b, rec, n) {
      GetPut32(n - HeaderSize);
      GetPut32(crc(b[HeaderSize..n]));
      PayloadPrefix(b[HeaderSize..n], rec);
    }
    if DecodeOne(crc, b) == Some((rec, n)) {
      PutGet32(b[0..4]);
      PutGet32(b[4..8]);
      PayloadOnly(b[HeaderSize..n]);
    }
  }

  // ------------------------------------------------------------------ whole files

  /** Appending after a valid prefix: what was there is read first, then what follows. */
  lemma {:induction false} AppendAfter(crc: Checksum, b: Bytes, rest: Bytes)
    ensures var c := b[..ValidLen(crc, b)] + rest;
            Records(crc, c) == Records(crc, b) + Records(crc, rest) && ValidLen(crc, c) == ValidLen(crc, b) + ValidLen(crc, rest)
    decreases |b|
  {
    hide DecodeOne;
    var c := b[..ValidLen(crc, b)] + rest;
    match DecodeOne(crc, b)
    case None =>
      assert c == rest;
    case Some((rec, n)) =>
      var t := b[n..];
      AppendAfter(crc, t, rest);
      assert c == b[..n] + (t[..ValidLen(crc, t)] + rest);
      DecodeLocal(crc, b, t[..ValidLen(crc, t)] + rest);
      assert c[n..] == t[..ValidLen(crc, t)] + rest;
  }

  /** Replaying a truncated file again finds the same records and cuts nothing more. */
  lemma TruncateOnce(crc: Checksum, b: Bytes)
    ensures var c := b[..ValidLen(crc, b)]; Records(crc, c) == Records(crc, b) && ValidLen(crc, c) == |c|
  {
    AppendAfter(crc, b, []);
    assert b[..ValidLen(crc, b)] + [] == b[..ValidLen(crc, b)];
  }

  lemma {:induction false} EncodedReplays(crc: Checksum, recs: seq<Record>)
    requires AllFit(recs)
    ensures Records(crc, EncodeAll(crc, recs)) == recs && ValidLen(crc, EncodeAll(crc, recs)) == |EncodeAll(crc, recs)|
    decreases |recs|
  {
    hide DecodeOne, Encode;
    if recs != [] {
      var rest := EncodeAll(crc, recs[1..]);
      DecodeEncoded(crc, recs[0], rest);
      EncodedReplays(crc, recs[1..]);
      assert (Encode(crc, recs[0]) + rest)[|Encode(crc, recs[0])|..] == rest;
    }
  }

  /** Records appended to a clean file are read back after what it held. */
  lemma AppendedReplay(crc: Checksum, b: Bytes, recs: seq<Record>)
    requires AllFit(recs) && ValidLen(crc, b) == |b|
    ensures var c := b + EncodeAll(crc, recs); Records(crc, c) == Records(crc, b) + recs && ValidLen(crc, c) == |c|
  {
    assert b[..|b|] == b;
    AppendAfter(crc, b, EncodeAll(crc, recs));
    EncodedReplays(crc, recs);
  }

  lemma EncodeTake(crc: Checksum, recs: seq<Record>, k: nat)
    requires 0 < k <= |recs|
    ensures EncodeAll(crc, recs[..k]) == Encode(crc, recs[0]) + EncodeAll(crc, recs[1..][..k - 1])
  {
    assert recs[..k][1..] == recs[1..][..k - 1];
  }

  /** How many of the records lie wholly before the cut. */
  function Whole(crc: Checksum, recs: seq<Record>, cut: nat): (k: nat)
    ensures k <= |recs| && |EncodeAll(crc, recs[..k])| <= cut
    ensures k < |recs| ==> cut < |EncodeAll(crc, recs[..k + 1])|
    decreases |recs|
  {
    if recs == [] then 0
    else if cut < |Encode(crc, recs[0])| then EncodeTake(crc, recs, 1); 0
    else
      var k := Whole(crc, recs[1..], cut - |Encode(crc, recs[0])|);
      EncodeTake(crc, recs, k + 1);
      assert k + 1 < |recs| ==> |EncodeAll(crc, recs[..k + 2])| > cut by { if k + 1 < |recs| { EncodeTake(crc, recs, k + 2); } }
      k + 1
  }

  /** The torn tail: any cut of a log gives back exactly the records wholly before it. */
  lemma {:induction false} TornTail(crc: Checksum, recs: seq<Record>, cut: nat)
    requires AllFit(recs) && cut <= |EncodeAll(crc, recs)|
    ensures var k := Whole(crc, recs, cut);
            && Records(crc, EncodeAll(crc, recs)[..cut]) == recs[..k]
            && ValidLen(crc, EncodeAll(crc, recs)[..cut]) == |EncodeAll(crc, recs[..k])|
    decreases |recs|
  {
    hide DecodeOne, Encode;
    if recs != [] {
      var one, rest := Encode(crc, recs[0]), EncodeAll(crc, recs[1..]);
      if cut < |one| {
        assert (one + rest)[..cut] == one[..cut];
        DecodeTorn(crc, recs[0], cut);
      } else {
        assert (one + rest)[..cut] == one + rest[..cut - |one|];
        DecodeEncoded(crc, recs[0], rest[..cut - |one|]);
        TornTail(crc, recs[1..], cut - |one|);
        assert (one + rest[..cut - |one|])[|one|..] == rest[..cut - |one|];
        var k := Whole(crc, recs[1..], cut - |one|);
        assert recs[..k + 1] == [recs[0]] + recs[1..][..k];
        assert recs[..k + 1][1..] == recs[1..][..k];
      }
    }
  }

  /** The same for a cut inside what is being appended to a clean file. */
  lemma TornAppend(crc: Checksum, b: Bytes, recs: seq<Record>, cut: nat)
    requires AllFit(recs) && ValidLen(crc, b) == |b| && cut <= |EncodeAll(crc, recs)|
    ensures Records(crc, b + EncodeAll(crc, recs)[..cut]) == Records(crc, b) + recs[..Whole(crc, recs, cut)]
  {
    assert b[..|b|] == b;
    AppendAfter(crc, b, EncodeAll(crc, recs)[..cut]);
    TornTail(crc, recs, cut);
  }
}

/** The log file and the loops that write and read it. */
module WalFile {
  import opened Bytes
  import opened RaftTypes
  import opened LittleEndian
  import opened Wal

  /** s with t written over it from off on. */
  function Splice(s: Bytes, off: nat, t: Bytes): (r: Bytes)
    requires off + |t| <= |s|
    ensures |r| == |s| && r[..off] == s[..off] && r[off..off + |t|] == t && r[off + |t|..] == s[off + |t|..]
  {
    s[..off] + t + s[off + |t|..]
  }

  /** PutUint32 and PutUint64. */
  method PutInto(buf: array<Byte>, off: nat, w: nat, v: nat)
    requires off + w <= buf.Length
    modifies buf
    ensures buf[..] == Splice(old(buf[..]), off, Put(w, v))
  {
    var x := v;
    for i := 0 to w
      invariant buf[off..off + i] + Put(w - i, x) == Put(w, v)
      invariant buf[..off] == old(buf[..off]) && buf[off + i..] == old(buf[off + i..])
    {
      assert Put(w - i, x)[0] == x % 256 && Put(w - i, x)[1..] == Put(w - i - 1, x / 256);
      ghost var done := buf[off..off + i];
      buf[off + i] := x % 256;
      x := x / 256;
      assert buf[off..off + i + 1] == done + [buf[off + i]];
    }
    assert buf[..] == buf[..off] + buf[off..off + w] + buf[off + w..];
  }

  method CopyInto(buf: array<Byte>, off: nat, src: Bytes)
    requires off + |src| <= buf.Length
    modifies buf
    ensures buf[..] == Splice(old(buf[..]), off, src)
  {
    for i := 0 to |src|
      invariant buf[off..off + i] == src[..i]
      invariant buf[..off] == old(buf[..off]) && buf[off + i..] == old(buf[off + i..])
    {
      ghost var done := buf[off..off + i];
      buf[off + i] := src[i];
      assert buf[off..off + i + 1] == done + [src[i]];
    }
    assert buf[..] == buf[..off] + buf[off..off + |src|] + buf[off + |src|..];
  }

  /** Writing the next part extends what has been filled in so far. */
  lemma SpliceNext(s: Bytes, from: nat, off: nat, t: Bytes)
    requires from <= off && off + |t| <= |s|
    ensures Splice(s, off, t)[from..off + |t|] == s[from..off] + t
  {
    var r := Splice(s, off, t);
    assert r[from..off] == r[..off][from..] == s[..off][from..] == s[from..off];
    assert r[from..off + |t|] == r[from..off] + r[off..off + |t|];
  }

  lemma SpliceHeader(s: Bytes, a: Bytes, b: Bytes)
    requires |a| == 4 && |b| == 4 && |s| >= 8
    ensures Splice(Splice(s, 0, a), 4, b) == a + b + s[8..]
  {
  }

  /** The payload, filled in part by part. */
  method FillPayload(buf: array<Byte>, rec: Record)
    requires buf.Length == HeaderSize + 17 + |rec.key| + |rec.value|
    modifies buf
    ensures buf[HeaderSize..] == Payload(rec)
  {
    hide Put, Splice;
    var at := HeaderSize + 13 + |rec.key|;
    buf[HeaderSize] := rec.kind;
    assert buf[..][HeaderSize..HeaderSize + 1] == [rec.kind];
    SpliceNext(buf[..], HeaderSize, HeaderSize + 1, Put(8, rec.seqNum));
    PutInto(buf, HeaderSize + 1, 8, rec.seqNum);
    SpliceNext(buf[..], HeaderSize, HeaderSize + 9, Put(4, |rec.key|));
    PutInto(buf, HeaderSize + 9, 4, |rec.key|);
    SpliceNext(buf[..], HeaderSize, HeaderSize + 13, rec.key);
    CopyInto(buf, HeaderSize + 13, rec.key);
    SpliceNext(buf[..], HeaderSize, at, Put(4, |rec.value|));
    PutInto(buf, at, 4, |rec.value|);
    SpliceNext(buf[..], HeaderSize, at + 4, rec.value);
    CopyInto(buf, at + 4, rec.value);
    assert buf[HeaderSize..] == buf[..][HeaderSize..buf.Length];
  }

  /** encode: the payload is filled in first, then the header before it. */
  method EncodeRecord(crc: Checksum, rec: Record) returns (buf: array<Byte>)
    ensures fresh(buf) && buf[..] == Encode(crc, rec)
  {
    hide Put, Splice, Payload;
    var n := 17 + |rec.key| + |rec.value|;
    buf := new Byte[HeaderSize + n](_ => 0);
    FillPayload(buf, rec);
    assert buf[..][HeaderSize..] == buf[HeaderSize..];
    SpliceHeader(buf[..], Put(4, crc(buf[HeaderSize..])), Put(4, n));
    PutInto(buf, 0, 4, crc(buf[HeaderSize..]));
    PutInto(buf, 4, 4, n);
  }

  /** A log on disk: the bytes of its file, and whether its handle is closed. */
  class Log {
    var bytes: Bytes
    var closed: bool
    var lastSeq: nat

    constructor (bytes: Bytes)
      ensures this.bytes == bytes && !closed && lastSeq == 0
    {
      this.bytes, closed, lastSeq := bytes, false, 0;
    }

    /** AppendBatch; false stands for an append to a closed log, which writes nothing. */
    method AppendBatch(crc: Checksum, recs: seq<Record>) returns (ok: bool)
      modifies this`bytes, this`lastSeq
      ensures ok == (recs == [] || !closed)
      ensures bytes == if ok then old(bytes) + EncodeAll(crc, recs) else old(bytes)
      ensures lastSeq >= old(lastSeq) && (ok ==> forall i :: 0 <= i < |recs| ==> lastSeq >= recs[i].seqNum)
    {
      hide Encode;
      if recs == [] { return true; }
      if closed { return false; }
      for i := 0 to |recs|
        invariant bytes + EncodeAll(crc, recs[i..]) == old(bytes) + EncodeAll(crc, recs)
        invariant lastSeq >= old(lastSeq) && forall j :: 0 <= j < i ==> lastSeq >= recs[j].seqNum
      {
        var buf := EncodeRecord(crc, recs[i]);
        assert recs[i..][0] == recs[i] && recs[i..][1..] == recs[i + 1..];
        bytes := bytes + buf[..];
        if recs[i].seqNum > lastSeq { lastSeq := recs[i].seqNum; }
      }
      assert recs[|recs|..] == [];
      return true;
    }

    /** The record at offset, if it is whole and its checksum is right. */
    method ReadRecord(crc: Checksum, offset: nat) returns (r: Option<(Record, nat)>)
      requires offset <= |bytes|
      ensures r == DecodeOne(crc, bytes[offset..])
    {
      hide Get, DecodePayload;
      ghost var rest := bytes[offset..];
      if |bytes| - offset < HeaderSize { return None; }
      assert rest[0..4] == bytes[offset..offset + 4] && rest[4..8] == bytes[offset + 4..offset + 8];
      var length := Get(bytes[offset + 4..offset + 8]);
      if length > |bytes| - offset - HeaderSize { return None; }
      var payload := bytes[offset + HeaderSize..offset + HeaderSize + length];
      assert payload == rest[HeaderSize..HeaderSize + length];
      if crc(payload) != Get(bytes[offset..offset + 4]) { return None; }
      var rec := DecodePayload(payload);
      if rec.None? { return None; }
      return Some((rec.value, HeaderSize + length));
    }

    /** Replay: reads every record up to the first malformed one and cuts the file there. */
    method Replay(crc: Checksum) returns (recs: seq<Record>, torn: bool, cut: nat)
      modifies this`bytes
      ensures recs == Records(crc, old(bytes)) && bytes == old(bytes)[..ValidLen(crc, old(bytes))]
      ensures torn == (cut > 0) && cut == |old(bytes)| - |bytes|
    {
      hide DecodeOne;
      recs := [];
      var offset := 0;
      ghost var b := bytes;
      while true
        invariant 0 <= offset <= |b| && bytes == b
        invariant Records(crc, b) == recs + Records(crc, b[offset..]) && ValidLen(crc, b) == offset + ValidLen(crc, b[offset..])
        decreases |b| - offset
      {
        var one := ReadRecord(crc, offset);
        if one.None? { break; }
        assert b[offset..][one.value.1..] == b[offset + one.value.1..];
        recs := recs + [one.value.0];
        offset := offset + one.value.1;
      }
      cut := |bytes| - offset;
      torn := cut > 0;
      bytes := bytes[..offset];
    }
  }
}
