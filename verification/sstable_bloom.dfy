/** The Bloom filter of sstable/bloom.go, for any two hash functions and any size. */
module Bloom {
  import opened Bytes
  import opened RaftTypes
  import opened LittleEndian

  /** The two 64-bit hashes of a key. */
  type Hash = Bytes -> (U64, U64)

  /** The bit a key's probe i falls on, in a filter of m bits. */
  function Probe(h: Hash, key: Bytes, i: nat, m: nat): (idx: nat)
    requires m > 0
    ensures idx < m
  {
    (h(key).0 + i * h(key).1) % TwoTo64 % m
  }

  // ------------------------------------------------------------------ bits of a byte

  predicate BitOf(b: nat, k: nat) {
    if k == 0 then b % 2 == 1 else BitOf(b / 2, k - 1)
  }

  /** b | 1 << k. */
  function WithBit(b: nat, k: nat): nat {
    if k == 0 then (if b % 2 == 1 then b else b + 1) else 2 * WithBit(b / 2, k - 1) + b % 2
  }

  lemma {:induction false} WithBitSets(b: nat, k: nat, j: nat)
    ensures BitOf(WithBit(b, k), j) <==> j == k || BitOf(b, j)
    decreases k
  {
    if k == 0 {
      assert WithBit(b, 0) / 2 == b / 2;
    } else {
      assert WithBit(b, k) / 2 == WithBit(b / 2, k - 1) && WithBit(b, k) % 2 == b % 2;
      if j > 0 { WithBitSets(b / 2, k - 1, j - 1); }
    }
  }

  function TwoTo(n: nat): nat { if n == 0 then 1 else 2 * TwoTo(n - 1) }

  lemma {:induction false} WithBitFits(b: nat, k: nat, n: nat)
    requires b < TwoTo(n) && k < n
    ensures WithBit(b, k) < TwoTo(n)
    decreases k
  {
    if k > 0 { WithBitFits(b / 2, k - 1, n - 1); }
  }

  lemma ByteFits(b: Byte, k: nat)
    requires k < 8
    ensures WithBit(b, k) < 256
  {
    assert TwoTo(4) == 16;
    assert TwoTo(8) == 256;
    WithBitFits(b, k, 8);
  }

  // --------------------------------------------------------------------- the filter

  predicate BitAt(bits: Bytes, idx: nat) { idx / 8 < |bits| && BitOf(bits[idx / 8], idx % 8) }

  datatype Filter = Filter(m: nat, k: nat, bits: Bytes)

  function BytesFor(m: nat): nat { (m + 7) % TwoTo64 / 8 }

  predicate AllProbes(f: Filter, h: Hash, key: Bytes, n: nat)
    requires f.m > 0
  {
    forall i :: 0 <= i < n ==> BitAt(f.bits, Probe(h, key, i, f.m))
  }

  /** mayContain: false rules the key out. */
  predicate May(f: Filter, h: Hash, key: Bytes) { f.m == 0 || AllProbes(f, h, key, f.k) }

  function EncodeFilter(f: Filter): Bytes { Put(4, f.k) + Put(8, f.m) + f.bits }

  function DecodeFilter(b: Bytes): Option<Filter> {
    if |b| < 12 then None
    else
      var m := Get(b[4..12]);
      if |b| - 12 != BytesFor(m) then None else Some(Filter(m, Get(b[0..4]), b[12..]))
  }

  lemma DecodeFilterBack(f: Filter)
    requires f.m < TwoTo64 && f.k < TwoTo32 && |f.bits| == BytesFor(f.m)
    ensures DecodeFilter(EncodeFilter(f)) == Some(f)
  {
    hide Put, Get;
    var b := EncodeFilter(f);
    assert b[0..4] == Put(4, f.k) && b[4..12] == Put(8, f.m) && b[12..] == f.bits;
    GetPut32(f.k);
    GetPut64(f.m);
  }

  /** And only an encoded filter decodes. */
  lemma FilterExact(b: Bytes, f: Filter)
    ensures DecodeFilter(b) == Some(f) <==> f.m < TwoTo64 && f.k < TwoTo32 && |f.bits| == BytesFor(f.m) && b == EncodeFilter(f)
  {
    hide Put, Get, BytesFor;
    if f.m < TwoTo64 && f.k < TwoTo32 && |f.bits| == BytesFor(f.m) && b == EncodeFilter(f) { DecodeFilterBack(f); }
    if DecodeFilter(b) == Some(f) {
      PutGet32(b[0..4]);
      PutGet64(b[4..12]);
      assert b == b[0..4] + b[4..12] + b[12..];
    }
  }

  /** The bits after one more probe is set. */
  lemma SetProbe(bits: Bytes, idx: nat, other: nat)
    requires idx / 8 < |bits| && WithBit(bits[idx / 8], idx % 8) < 256
    ensures var r := bits[idx / 8 := WithBit(bits[idx / 8], idx % 8)];
            BitAt(r, other) <==> other == idx || BitAt(bits, other)
  {
    WithBitSets(bits[idx / 8], idx % 8, idx % 8);
    WithBitSets(bits[idx / 8], idx % 8, other % 8);
  }

  /** Some probe of some of the keys falls on the bit. */
  ghost predicate Hit(keys: set<Bytes>, h: Hash, k: nat, m: nat, idx: nat)
    requires m > 0
  {
    exists key: Bytes, i: nat :: key in keys && i < k && Probe(h, key, i, m) == idx
  }

  /** Exactly the bits that the keys' probes fall on are set. */
  ghost predicate Exact(f: Filter, h: Hash, keys: set<Bytes>) {
    f.m > 0 ==> forall idx: nat :: BitAt(f.bits, idx) <==> Hit(keys, h, f.k, f.m, idx)
  }

  /** So a key is ruled out exactly when one of its probes falls where no probe of theirs does. */
  lemma MayExact(f: Filter, h: Hash, keys: set<Bytes>, key: Bytes)
    requires Exact(f, h, keys)
    ensures May(f, h, key) <==> f.m == 0 || forall i: nat :: i < f.k ==> Hit(keys, h, f.k, f.m, Probe(h, key, i, f.m))
    ensures key in keys ==> May(f, h, key)
  {
    hide Probe, BitAt;
    if f.m > 0 {
      forall i: nat | i < f.k && key in keys
        ensures Hit(keys, h, f.k, f.m, Probe(h, key, i, f.m))
      {
      }
    }
  }

  lemma NoneHit(h: Hash, k: nat, m: nat, bits: Bytes)
    requires forall i :: 0 <= i < |bits| ==> bits[i] == 0
    ensures Exact(Filter(m, k, bits), h, {})
  {
    forall idx: nat ensures !BitAt(bits, idx) { if idx / 8 < |bits| { NoBits(idx % 8); } }
  }

  lemma {:induction false} NoBits(k: nat)
    ensures !BitOf(0, k)
  {
    if k > 0 { NoBits(k - 1); }
  }

  /** The bits of the first i probes of a key, on top of those there were. */
  ghost predicate Adding(before: Bytes, now: Bytes, h: Hash, key: Bytes, i: nat, m: nat)
    requires m > 0
  {
    |now| == |before| && forall idx: nat :: BitAt(now, idx) <==> BitAt(before, idx) || Probed(h, key, i, m, idx)
  }

  /** One of the key's first i probes falls on the bit. */
  ghost predicate Probed(h: Hash, key: Bytes, i: nat, m: nat, idx: nat)
    requires m > 0
  {
    exists j: nat :: j < i && Probe(h, key, j, m) == idx
  }

  lemma ProbedNext(h: Hash, key: Bytes, i: nat, m: nat, idx: nat)
    requires m > 0
    ensures Probed(h, key, i + 1, m, idx) <==> Probed(h, key, i, m, idx) || Probe(h, key, i, m) == idx
  {
    hide Probe;
    if Probed(h, key, i, m, idx) {
      var j: nat :| j < i && Probe(h, key, j, m) == idx;
      assert j < i + 1;
    }
  }

  lemma AddingNext(before: Bytes, now: Bytes, h: Hash, key: Bytes, i: nat, m: nat)
    requires m > 0 && Adding(before, now, h, key, i, m)
    requires var idx := Probe(h, key, i, m); idx / 8 < |now| && WithBit(now[idx / 8], idx % 8) < 256
    ensures var idx := Probe(h, key, i, m); Adding(before, now[idx / 8 := WithBit(now[idx / 8], idx % 8)], h, key, i + 1, m)
  {
    hide Probe, BitAt, WithBit, Probed;
    var at := Probe(h, key, i, m);
    var r := now[at / 8 := WithBit(now[at / 8], at % 8)];
    forall idx: nat
      ensures BitAt(r, idx) <==> BitAt(before, idx) || Probed(h, key, i + 1, m, idx)
    {
      SetProbe(now, at, idx);
      ProbedNext(h, key, i, m, idx);
    }
  }

  lemma Added(before: Bytes, now: Bytes, h: Hash, keys: set<Bytes>, key: Bytes, k: nat, m: nat)
    requires m > 0 && Adding(before, now, h, key, k, m) && Exact(Filter(m, k, before), h, keys)
    ensures Exact(Filter(m, k, now), h, keys + {key})
  {
    hide Probe, BitAt;
    forall idx: nat
      ensures BitAt(now, idx) <==> Hit(keys + {key}, h, k, m, idx)
    {
      if j: nat :| j < k && Probe(h, key, j, m) == idx { assert key in keys + {key}; }
      if Hit(keys, h, k, m, idx) {
        var x: Bytes, i: nat :| x in keys && i < k && Probe(h, x, i, m) == idx;
        assert x in keys + {key};
      }
    }
  }

  lemma NoneAdded(bits: Bytes, h: Hash, key: Bytes, m: nat)
    requires m > 0
    ensures Adding(bits, bits, h, key, 0, m)
  {
    hide BitAt;
  }

  lemma NothingToSet(f: Filter, h: Hash, keys: set<Bytes>)
    requires f.m == 0
    ensures Exact(f, h, keys)
  {
  }

  class BloomFilter {
    const m: nat
    const k: nat
    const bits: array<Byte>
    ghost var added: set<Bytes>

    ghost function View(): Filter
      reads bits
    {
      Filter(m, k, bits[..])
    }

    /** The bits set are those of the keys added so far. */
    ghost predicate Valid(h: Hash)
      reads this, bits
    {
      && m + 7 < TwoTo64 && bits.Length == (m + 7) / 8
      && Exact(View(), h, added)
    }

    constructor (h: Hash, m: nat, k: nat)
      requires m + 7 < TwoTo64
      ensures Valid(h) && added == {} && this.m == m && this.k == k && fresh(bits)
    {
      this.m, this.k, added := m, k, {};
      bits := new Byte[(m + 7) / 8](_ => 0);
      new;
      NoneHit(h, k, m, bits[..]);
    }

    method Add(h: Hash, key: Bytes)
      requires Valid(h)
      modifies this, bits
      ensures Valid(h) && added == old(added) + {key}
    {
      hide BitAt, Probe, WithBit, Exact, Adding;
      ghost var was := bits[..];
      if m > 0 {
        assert Adding(was, bits[..], h, key, 0, m) by { NoneAdded(was, h, key, m); }
        for i := 0 to k
          invariant Adding(was, bits[..], h, key, i, m) && added == old(added)
        {
          var idx := Probe(h, key, i, m);
          ghost var before := bits[..];
          ByteFits(bits[idx / 8], idx % 8);
          AddingNext(was, before, h, key, i, m);
          bits[idx / 8] := WithBit(bits[idx / 8], idx % 8);
          assert bits[..] == before[idx / 8 := WithBit(before[idx / 8], idx % 8)];
        }
        Added(was, bits[..], h, added, key, k, m);
      } else {
        NothingToSet(View(), h, added + {key});
      }
      added := added + {key};
    }

    /**
     * mayContain: true exactly when no bits were kept or every probe of the key falls on a probe of some
     * added key, so never false for a key that was added.
     */
    method MayContain(h: Hash, key: Bytes) returns (b: bool)
      requires Valid(h)
      ensures b == May(View(), h, key)
      ensures b <==> m == 0 || forall i: nat :: i < k ==> Hit(added, h, k, m, Probe(h, key, i, m))
      ensures key in added ==> b
    {
      hide BitOf, Exact, Hit, Probe;
      MayExact(View(), h, added, key);
      if m == 0 { return true; }
      for i := 0 to k
        invariant AllProbes(View(), h, key, i)
      {
        var idx := Probe(h, key, i, m);
        if !BitOf(bits[idx / 8], idx % 8) { return false; }
      }
      return true;
    }
  }
}
