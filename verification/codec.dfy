/** Fixed-width little-endian numbers, as encoding/binary writes them. */
module LittleEndian {
  import opened Bytes

  const TwoTo32: nat := 0x1_0000_0000
  const TwoTo64: nat := 0x1_0000_0000_0000_0000

  type U64 = n: nat | n < 0x1_0000_0000_0000_0000

  function Pow256(w: nat): (p: nat)
    ensures p > 0
  {
    if w == 0 then 1 else 256 * Pow256(w - 1)
  }

  /** The low w bytes of v, least significant first. */
  function Put(w: nat, v: nat): (b: Bytes)
    ensures |b| == w
  {
    if w == 0 then [] else [v % 256] + Put(w - 1, v / 256)
  }

  function Get(b: Bytes): nat {
    if b == [] then 0 else b[0] + 256 * Get(b[1..])
  }

  lemma {:induction false} GetPut(w: nat, v: nat)
    requires v < Pow256(w)
    ensures Get(Put(w, v)) == v
  {
    if w > 0 {
      GetPut(w - 1, v / 256);
      assert Put(w, v)[1..] == Put(w - 1, v / 256);
    }
  }

  lemma Powers()
    ensures Pow256(4) == TwoTo32 && Pow256(8) == TwoTo64
  {
    assert Pow256(2) == 65536;
    assert Pow256(4) == 256 * (256 * Pow256(2));
    assert Pow256(6) == 256 * (256 * Pow256(4));
    assert Pow256(8) == 256 * (256 * Pow256(6));
  }

  lemma GetPut32(v: nat)
    requires v < TwoTo32
    ensures Get(Put(4, v)) == v
  {
    Powers();
    GetPut(4, v);
  }

  lemma GetPut64(v: nat)
    requires v < TwoTo64
    ensures Get(Put(8, v)) == v
  {
    Powers();
    GetPut(8, v);
  }

  lemma {:induction false} GetBound(b: Bytes)
    ensures Get(b) < Pow256(|b|)
  {
    if b != [] { GetBound(b[1..]); }
  }

  /** And back: the bytes are those of the number read from them. */
  lemma {:induction false} PutGet(b: Bytes)
    ensures Put(|b|, Get(b)) == b
  {
    if b != [] {
      var rest := Get(b[1..]);
      PutGet(b[1..]);
      PutStep(|b|, b[0], rest);
      assert b == [b[0]] + b[1..];
    }
  }

  lemma LowByte(x: nat, rest: nat)
    requires x < 256
    ensures (x + 256 * rest) % 256 == x && (x + 256 * rest) / 256 == rest
  {
  }

  lemma PutStep(w: nat, x: nat, rest: nat)
    requires w > 0 && x < 256
    ensures Put(w, x + 256 * rest) == [x] + Put(w - 1, rest)
  {
    LowByte(x, rest);
  }

  lemma PutGet32(b: Bytes)
    requires |b| == 4
    ensures Put(4, Get(b)) == b && Get(b) < TwoTo32
  {
    Powers();
    GetBound(b);
    PutGet(b);
  }

  lemma PutGet64(b: Bytes)
    requires |b| == 8
    ensures Put(8, Get(b)) == b && Get(b) < TwoTo64
  {
    Powers();
    GetBound(b);
    PutGet(b);
  }
}

/** Variable-width numbers, as binary.AppendUvarint and binary.Uvarint handle them. */
module Varint {
  import opened Bytes
  import opened RaftTypes
  import opened LittleEndian

  function PutVar(v: nat): (b: Bytes)
    ensures |b| > 0
  {
    if v < 128 then [v] else [v % 128 + 128] + PutVar(v / 128)
  }

  /** The number at the front of b, from its byte i on, and how many bytes it takes; None for a short or overlong one. */
  function GetVarFrom(b: Bytes, i: nat): (r: Option<(nat, nat)>)
    ensures r.Some? ==> 0 < r.value.1 <= |b|
    decreases |b|
  {
    if b == [] || i >= 10 then None
    else if b[0] < 128 then (if i == 9 && b[0] > 1 then None else Some((b[0], 1)))
    else
      match GetVarFrom(b[1..], i + 1)
      case None => None
      case Some((v, n)) => Some((b[0] - 128 + 128 * v, n + 1))
  }

  function GetVar(b: Bytes): (r: Option<(nat, nat)>)
    ensures r.Some? ==> 0 < r.value.1 <= |b|
  {
    GetVarFrom(b, 0)
  }

  /** What is left of 64 bits after i groups of seven. */
  function Room(i: nat): nat
    requires i <= 9
    decreases 9 - i
  {
    if i == 9 then 2 else 128 * Room(i + 1)
  }

  lemma {:induction false} GetPutVarFrom(v: nat, i: nat, rest: Bytes)
    requires i <= 9 && v < Room(i)
    ensures GetVarFrom(PutVar(v) + rest, i) == Some((v, |PutVar(v)|))
    decreases 9 - i
  {
    if v >= 128 {
      GetPutVarFrom(v / 128, i + 1, rest);
      assert (PutVar(v) + rest)[1..] == PutVar(v / 128) + rest;
    }
  }

  lemma AllRoom()
    ensures Room(0) == TwoTo64
  {
    assert Room(7) == 128 * 128 * 2;
    assert Room(5) == 128 * 128 * Room(7);
    assert Room(3) == 128 * 128 * Room(5);
    assert Room(1) == 128 * 128 * Room(3);
  }

  /** Any 64-bit number is read back, whatever follows it. */
  lemma GetPutVar(v: nat, rest: Bytes)
    requires v < TwoTo64
    ensures GetVar(PutVar(v) + rest) == Some((v, |PutVar(v)|))
  {
    AllRoom();
    GetPutVarFrom(v, 0, rest);
  }
}
