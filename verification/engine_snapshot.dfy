/** Snapshots of the engine: their bytes, taking one and restoring one. */
module SnapshotFormat {
  import opened Bytes
  import opened RaftTypes
  import opened LittleEndian

  /** A live key and its value. */
  datatype Pair = Pair(key: Bytes, value: Bytes)

  function Prefixed(b: Bytes): (r: Bytes)
    ensures |r| == 4 + |b|
  {
    Put(4, |b|) + b
  }

  function EncodePairs(ps: seq<Pair>): Bytes {
    if ps == [] then [] else EncodePairs(ps[..|ps| - 1]) + Prefixed(ps[|ps| - 1].key) + Prefixed(ps[|ps| - 1].value)
  }

  /** readLenPrefixed; what is left is counted in 32 bits. */
  function ReadPrefixed(b: Bytes): (r: Option<(Bytes, nat)>)
    ensures r.Some? ==> r.value.1 == 4 + |r.value.0| <= |b|
  {
    if |b| < 4 then None
    else
      var n := Get(b[..4]);
      if (|b| - 4) % TwoTo32 < n then None else Some((b[4..4 + n], 4 + n))
  }

  function DecodePairs(b: Bytes): Option<seq<Pair>>
    decreases |b|
  {
    if b == [] then Some([])
    else match ReadPrefixed(b)
      case None => None
      case Some((key, n)) =>
        match ReadPrefixed(b[n..])
        case None => None
        case Some((value, m)) =>
          match DecodePairs(b[n..][m..])
          case None => None
          case Some(rest) => Some([Pair(key, value)] + rest)
  }

  lemma ReadBack(b: Bytes, rest: Bytes)
    requires |b| + |rest| < TwoTo32
    ensures ReadPrefixed(Prefixed(b) + rest) == Some((b, 4 + |b|)) && (Prefixed(b) + rest)[4 + |b|..] == rest
  {
    hide Put, Get;
    var all := Prefixed(b) + rest;
    assert all[..4] == Put(4, |b|) && all[4..4 + |b|] == b;
    GetPut32(|b|);
  }

  lemma {:induction false} EncodeFirst(ps: seq<Pair>)
    requires ps != []
    ensures EncodePairs(ps) == Prefixed(ps[0].key) + (Prefixed(ps[0].value) + EncodePairs(ps[1..]))
    decreases |ps|
  {
    hide Prefixed;
    var n := |ps| - 1;
    if n == 0 {
      assert ps[..n] == [] && ps[1..] == [];
    } else {
      EncodeFirst(ps[..n]);
      assert ps[..n][1..] == ps[1..][..n - 1];
      assert ps[1..][n - 1] == ps[n];
      FrontOut(Prefixed(ps[0].key), Prefixed(ps[0].value), EncodePairs(ps[1..][..n - 1]), Prefixed(ps[n].key), Prefixed(ps[n].value));
    }
  }

  lemma FrontOut(a: Bytes, b: Bytes, mid: Bytes, c: Bytes, d: Bytes)
    ensures a + (b + mid) + c + d == a + (b + (mid + c + d))
  {
  }

  /** What was encoded is decoded. */
  lemma {:induction false} PairsBack(ps: seq<Pair>)
    requires |EncodePairs(ps)| < TwoTo32
    ensures DecodePairs(EncodePairs(ps)) == Some(ps)
    decreases |ps|
  {
    hide Prefixed, ReadPrefixed;
    if ps != [] {
      var rest := EncodePairs(ps[1..]);
      EncodeFirst(ps);
      ReadBack(ps[0].value, rest);
      ReadBack(ps[0].key, Prefixed(ps[0].value) + rest);
      PairsBack(ps[1..]);
      assert ps == [ps[0]] + ps[1..];
    }
  }

  lemma ReadExact(b: Bytes)
    requires |b| < TwoTo32 && ReadPrefixed(b).Some?
    ensures b == Prefixed(ReadPrefixed(b).value.0) + b[ReadPrefixed(b).value.1..]
  {
    hide Put, Get;
    var n := Get(b[..4]);
    PutGet32(b[..4]);
    assert b == b[..4] + b[4..4 + n] + b[4 + n..];
  }

  /** And only what was encoded is. */
  lemma {:induction false} PairsExact(b: Bytes, ps: seq<Pair>)
    requires |b| < TwoTo32
    ensures DecodePairs(b) == Some(ps) <==> b == EncodePairs(ps)
  {
    if b == EncodePairs(ps) { PairsBack(ps); }
    if DecodePairs(b) == Some(ps) { PairsOnly(b); }
  }

  lemma {:induction false} PairsOnly(b: Bytes)
    requires |b| < TwoTo32 && DecodePairs(b).Some?
    ensures b == EncodePairs(DecodePairs(b).value)
    decreases |b|
  {
    hide Prefixed, ReadPrefixed;
    if b != [] {
      var (key, n) := ReadPrefixed(b).value;
      var (value, m) := ReadPrefixed(b[n..]).value;
      var rest := b[n..][m..];
      ReadExact(b);
      ReadExact(b[n..]);
      PairsOnly(rest);
      var ps := DecodePairs(b).value;
      EncodeFirst(ps);
      assert ps[1..] == DecodePairs(rest).value;
    }
  }

  /** decodeSnapshotEntries. */
  method DecodeEntries(data: Bytes) returns (r: Option<seq<Pair>>)
    ensures r == DecodePairs(data)
  {
    hide ReadPrefixed;
    var entries: seq<Pair> := [];
    var off: nat := 0;
    assert data[0..] == data;
    assert DecodePairs(data).Some? ==> [] + DecodePairs(data).value == DecodePairs(data).value;
    while off < |data|
      invariant off <= |data|
      invariant DecodePairs(data) == Joined(entries, DecodePairs(data[off..]))
      decreases |data| - off
    {
      var key := ReadPrefixed(data[off..]);
      if key.None? { return None; }
      var at := off + key.value.1;
      assert data[off..][key.value.1..] == data[at..];
      var value := ReadPrefixed(data[at..]);
      if value.None? { return None; }
      assert data[at..][value.value.1..] == data[at + value.value.1..];
      JoinedMore(entries, Pair(key.value.0, value.value.0), DecodePairs(data[at + value.value.1..]));
      entries, off := entries + [Pair(key.value.0, value.value.0)], at + value.value.1;
    }
    assert data[off..] == [] && entries + [] == entries;
    return Some(entries);
  }

  function Joined(front: seq<Pair>, rest: Option<seq<Pair>>): Option<seq<Pair>> {
    if rest.Some? then Some(front + rest.value) else None
  }

  lemma JoinedMore(front: seq<Pair>, p: Pair, rest: Option<seq<Pair>>)
    ensures Joined(front, Joined([p], rest)) == Joined(front + [p], rest)
  {
    if rest.Some? { assert front + ([p] + rest.value) == front + [p] + rest.value; }
  }

  ghost predicate DistinctKeys(ps: seq<Pair>) { forall i, j :: 0 <= i < j < |ps| ==> ps[i].key != ps[j].key }
}

/** Sorting a snapshot's entries, which come in any order. */
module SnapshotSort {
  import opened Bytes
  import opened ByteOrder
  import opened SnapshotFormat

  ghost predicate Nondecreasing(ps: seq<Pair>) { forall i, j :: 0 <= i < j < |ps| ==> !Less(ps[j].key, ps[i].key) }

  /** r holds the first n entries of ps, each once; perm says where each comes from. */
  ghost predicate Rearranges(r: seq<Pair>, ps: seq<Pair>, perm: seq<nat>, n: nat) {
    && n <= |ps| && |r| == |perm| == n && (forall i :: 0 <= i < n ==> perm[i] < n && r[i] == ps[perm[i]])
    && (forall i, j :: 0 <= i < j < n ==> perm[i] != perm[j]) && forall k :: 0 <= k < n ==> k in perm
  }

  lemma LessThrough(a: Bytes, b: Bytes, c: Bytes)
    requires Less(a, b) && !Less(c, b)
    ensures Less(a, c)
  {
    LessTotal(b, c);
    if Less(b, c) { LessTrans(a, b, c); }
  }

  lemma InsertKeeps(r: seq<Pair>, p: Pair, i: nat)
    requires Nondecreasing(r) && i <= |r| && (i > 0 ==> !Less(p.key, r[i - 1].key)) && forall j :: i <= j < |r| ==> Less(p.key, r[j].key)
    ensures Nondecreasing(r[..i] + [p] + r[i..])
  {
    forall j | 0 <= j < i
      ensures !Less(p.key, r[j].key)
    {
      if Less(p.key, r[j].key) && j < i - 1 { LessThrough(p.key, r[j].key, r[i - 1].key); }
    }
    forall j | i <= j < |r|
      ensures !Less(r[j].key, p.key)
    {
      LessAsym(p.key, r[j].key);
    }
  }

  lemma PermuteMore(r: seq<Pair>, ps: seq<Pair>, perm: seq<nat>, n: nat, i: nat)
    requires Rearranges(r, ps, perm, n) && n < |ps| && i <= n
    ensures Rearranges(r[..i] + [ps[n]] + r[i..], ps, perm[..i] + [n] + perm[i..], n + 1)
  {
    var q := perm[..i] + [n] + perm[i..];
    assert perm == perm[..i] + perm[i..];
    forall k | 0 <= k < n + 1
      ensures k in q
    {
      if k < n { assert k in perm; assert k in perm[..i] || k in perm[i..]; } else { assert q[i] == n; }
    }
  }

  /** Sorted by key. */
  method SortPairs(ps: seq<Pair>) returns (r: seq<Pair>, ghost perm: seq<nat>)
    ensures Nondecreasing(r) && Rearranges(r, ps, perm, |ps|)
  {
    hide Less, Nondecreasing, Rearranges;
    r, perm := [], [];
    assert Nondecreasing(r) && Rearranges(r, ps, perm, 0) by { EmptySorted(ps); }
    for n := 0 to |ps|
      invariant |r| == |perm| == n && Nondecreasing(r) && Rearranges(r, ps, perm, n)
    {
      var i := |r|;
      while i > 0 && Less(ps[n].key, r[i - 1].key)
        invariant 0 <= i <= |r| && forall j :: i <= j < |r| ==> Less(ps[n].key, r[j].key)
      {
        i := i - 1;
      }
      InsertKeeps(r, ps[n], i);
      PermuteMore(r, ps, perm, n, i);
      r, perm := r[..i] + [ps[n]] + r[i..], perm[..i] + [n] + perm[i..];
    }
  }

  lemma EmptySorted(ps: seq<Pair>)
    ensures Nondecreasing([]) && Rearranges([], ps, [], 0)
  {
  }

  /** Keys that differ before sorting differ after, and the other way round. */
  lemma DistinctEither(r: seq<Pair>, ps: seq<Pair>, perm: seq<nat>)
    requires Rearranges(r, ps, perm, |ps|)
    ensures DistinctKeys(r) <==> DistinctKeys(ps)
  {
    if DistinctKeys(ps) {
      forall i, j | 0 <= i < j < |r|
        ensures r[i].key != r[j].key
      {
        assert perm[i] < perm[j] || perm[j] < perm[i];
      }
    }
    if DistinctKeys(r) {
      forall a, b | 0 <= a < b < |ps|
        ensures ps[a].key != ps[b].key
      {
        assert a in perm && b in perm;
        var i :| 0 <= i < |perm| && perm[i] == a;
        var j :| 0 <= j < |perm| && perm[j] == b;
        assert i < j || j < i;
      }
    }
  }
}

/** Snapshot and RestoreSnapshot. */
module EngineSnapshots {
  import opened Bytes
  import opened RaftTypes
  import opened ByteOrder
  import opened Runs
  import opened LittleEndian
  import opened Wal
  import opened Stores
  import opened EngineSteps
  import opened EngineInvariant
  import opened Memtables
  import opened Engines
  import opened SnapshotFormat
  import opened SnapshotSort

  /** The pairs are exactly the live keys of a layer, with their values. */
  ghost predicate Represents(ps: seq<Pair>, l: Layer) {
    && DistinctKeys(ps) && (forall i :: 0 <= i < |ps| ==> Answer(l, ps[i].key) == Some(ps[i].value))
    && forall key :: Answer(l, key).Some? ==> exists i :: 0 <= i < |ps| && ps[i].key == key
  }

  // --------------------------------------------------------------------- taking one

  /** The keys of a run, added to those already there. */
  method AddKeys(items: seq<Item>, have: set<Bytes>) returns (keys: set<Bytes>)
    ensures keys == have + LayerOf(items).Keys
  {
    hide LayerOf, Find;
    keys := have;
    for i := 0 to |items|
      invariant forall k :: k in keys <==> k in have || exists j :: 0 <= j < i && items[j].key == k
    {
      keys := keys + {items[i].key};
    }
    forall k: Bytes
      ensures k in keys <==> k in have || k in LayerOf(items).Keys
    {
      LayerKeys(items, k);
    }
  }

  lemma LayerKeys(items: seq<Item>, key: Bytes)
    ensures key in LayerOf(items) <==> exists j :: 0 <= j < |items| && items[j].key == key
  {
    hide Written;
    WrittenKeys(ItemOps(items), key);
    if j :| 0 <= j < |items| && items[j].key == key { assert ItemOps(items)[j].key == key; }
    if i :| 0 <= i < |ItemOps(items)| && ItemOps(items)[i].key == key { assert items[i].key == key; }
  }

  method TableKeys(ts: seq<SSTable>, have: set<Bytes>) returns (keys: set<Bytes>)
    ensures keys == have + Stack(ts).Keys
  {
    hide LayerOf, Stack;
    keys := have;
    var i := |ts|;
    assert Stack(ts[|ts|..]).Keys == {} by { StackEnd(ts); }
    while i > 0
      invariant 0 <= i <= |ts| && keys == have + Stack(ts[i..]).Keys
      decreases i
    {
      i := i - 1;
      StackAt(ts, i);
      keys := AddKeys(ts[i].items, keys);
    }
    assert ts[0..] == ts;
  }

  lemma StackEnd(ts: seq<SSTable>)
    ensures Stack(ts[|ts|..]).Keys == {}
  {
    assert ts[|ts|..] == [];
  }

  lemma StackAt(ts: seq<SSTable>, i: nat)
    requires i < |ts|
    ensures Stack(ts[i..]).Keys == Stack(ts[i + 1..]).Keys + LayerOf(ts[i].items).Keys
  {
    hide LayerOf;
    assert ts[i..][1..] == ts[i + 1..];
  }

  /** Every key the engine knows of. */
  method KnownKeys(e: Engine) returns (keys: set<Bytes>)
    requires e.Valid()
    ensures keys == View(e.Now()).Keys
  {
    hide LayerOf, Stack, Good, Memtable.Valid;
    assert e.immutable != null ==> e.immutable.Valid();
    var items := e.mem.Scan();
    keys := AddKeys(items, {});
    if e.immutable != null {
      items := e.immutable.Scan();
      keys := AddKeys(items, keys);
    }
    keys := TableKeys(e.sstables, keys);
  }

  /** Snapshot: the keys are visited in any order, and only live ones are written. */
  method TakeSnapshot(e: Engine) returns (data: Bytes, ghost ps: seq<Pair>)
    requires e.Valid()
    ensures data == EncodePairs(ps) && Represents(ps, View(e.Now()))
    ensures |data| < TwoTo32 ==> DecodePairs(data).Some? && Represents(DecodePairs(data).value, View(e.Now()))
  {
    hide View, Prefixed, Represents, Answer, Listed, EncodePairs, DecodePairs, Good, Memtable.Valid, Engine.Abs, Written;
    ghost var l := View(e.Now());
    var rest := KnownKeys(e);
    data, ps := [], [];
    NoneListed(l);
    assert rest == l.Keys;
    while rest != {}
      invariant rest <= l.Keys && data == EncodePairs(ps) && Listed(ps, l, l.Keys - rest) && e.Valid() && l == View(e.Now())
      decreases |rest|
    {
      var k :| k in rest;
      var v := e.Get(k);
      if v.Some? {
        data := data + Prefixed(k) + Prefixed(v.value);
        EncodeLast(ps, Pair(k, v.value));
      }
      ListedMore(ps, l, l.Keys - rest, k);
      assert l.Keys - rest + {k} == l.Keys - (rest - {k});
      rest, ps := rest - {k}, if v.Some? then ps + [Pair(k, v.value)] else ps;
    }
    assert l.Keys - {} == l.Keys;
    ListedAll(ps, l);
    if |data| < TwoTo32 { PairsBack(ps); }
  }

  lemma EncodeLast(ps: seq<Pair>, p: Pair)
    ensures EncodePairs(ps + [p]) == EncodePairs(ps) + Prefixed(p.key) + Prefixed(p.value)
  {
    assert (ps + [p])[..|ps|] == ps;
  }

  /** The live ones among the keys done so far. */
  ghost predicate Listed(ps: seq<Pair>, l: Layer, done: set<Bytes>) {
    && DistinctKeys(ps) && (forall i :: 0 <= i < |ps| ==> ps[i].key in done && Answer(l, ps[i].key) == Some(ps[i].value))
    && forall key :: key in done && Answer(l, key).Some? ==> exists i :: 0 <= i < |ps| && ps[i].key == key
  }

  lemma NoneListed(l: Layer)
    ensures Listed([], l, l.Keys - l.Keys) && EncodePairs([]) == []
  {
  }

  lemma ListedMore(ps: seq<Pair>, l: Layer, done: set<Bytes>, k: Bytes)
    requires Listed(ps, l, done) && k !in done
    ensures Listed(match Answer(l, k) case Some(v) => ps + [Pair(k, v)] case None => ps, l, done + {k})
  {
    if Answer(l, k).Some? {
      var qs := ps + [Pair(k, Answer(l, k).value)];
      forall key | key in done + {k} && Answer(l, key).Some?
        ensures exists i :: 0 <= i < |qs| && qs[i].key == key
      {
        if key == k {
          assert qs[|ps|].key == key;
        } else {
          var i :| 0 <= i < |ps| && ps[i].key == key;
          assert qs[i].key == key;
        }
      }
    }
  }

  lemma ListedAll(ps: seq<Pair>, l: Layer)
    requires Listed(ps, l, l.Keys)
    ensures Represents(ps, l)
  {
    assert forall key :: Answer(l, key).Some? ==> key in l.Keys;
  }

  // ------------------------------------------------------------------- restoring one

  /** The snapshot table's entries, numbered from 1; the table's writer refuses a key that is not above the last. */
  method TableItems(r: seq<Pair>) returns (ok: bool, items: seq<Item>)
    requires Nondecreasing(r)
    ensures ok <==> DistinctKeys(r)
    ensures ok ==> Sorted(items) && |items| == |r| && forall i :: 0 <= i < |r| ==> items[i] == Item(r[i].key, r[i].value, i + 1, false)
  {
    hide Less;
    items := [];
    for i := 0 to |r|
      invariant |items| == i && (forall j :: 0 <= j < i ==> items[j] == Item(r[j].key, r[j].value, j + 1, false)) && Sorted(items)
    {
      if i > 0 && !Less(items[i - 1].key, r[i].key) {
        LessTotal(r[i - 1].key, r[i].key);
        assert r[i - 1].key == r[i].key;
        return false, [];
      }
      forall j | 0 <= j < i
        ensures Less(items[j].key, r[i].key)
      {
        if j < i - 1 { LessTrans(items[j].key, items[i - 1].key, r[i].key); }
      }
      items := items + [Item(r[i].key, r[i].value, i + 1, false)];
    }
    forall i, j | 0 <= i < j < |r|
      ensures r[i].key != r[j].key
    {
      LessAsym(items[i].key, items[j].key);
    }
    ok := true;
  }

  /** The table's answers are the snapshot's. */
  lemma RestoredAnswers(items: seq<Item>, r: seq<Pair>, ps: seq<Pair>, perm: seq<nat>, l: Layer)
    requires Represents(ps, l) && Rearranges(r, ps, perm, |ps|) && |items| == |r|
    requires forall i :: 0 <= i < |r| ==> items[i] == Item(r[i].key, r[i].value, i + 1, false)
    ensures SameAnswers(LayerOf(items), l)
  {
    hide Written;
    DistinctEither(r, ps, perm);
    var ops := ItemOps(items);
    forall key: Bytes
      ensures Answer(LayerOf(items), key) == Answer(l, key)
    {
      if Answer(l, key).Some? {
        var a :| 0 <= a < |ps| && ps[a].key == key;
        assert a in perm;
        var i :| 0 <= i < |perm| && perm[i] == a;
        assert items[i].key == key;
      }
      LayerKeys(items, key);
      if key in LayerOf(items) {
        var i :| 0 <= i < |items| && items[i].key == key;
        WrittenAt(ops, i);
      }
    }
  }

  /** The commit of a restore: the marker's number is above every file there is, and the memory switches over. */
  method Commit(e: Engine, items: seq<Item>)
    requires e.Valid() && e.immutable == null && Sorted(items)
    modifies e, e.dir
    ensures e.Valid() && e.immutable == null && !e.flushErr && e.hist == ItemOps(items) && fresh(e.mem.repr) && e.nextSeq == old(e.nextSeq)
    ensures e.dir.marker == RestoreNumber(old(e.Now())) && e.sstables == [SSTable(e.dir.marker, items)] && e.wal == e.dir.marker && e.Lone()
    ensures Possible(e.crc, old(e.Abs()), Restore(items)) && e.Abs() == After(e.crc, old(e.Abs()), Restore(items))
  {
    hide LayerOf, Good, Memtable.Valid, Stack, Written, Sorted, Possible, After;
    ghost var s := e.Abs();
    var n := if e.nextWALSeq > e.nextFlushSeq then e.nextWALSeq else e.nextFlushSeq;
    RestoreStep(e.crc, s, items);
    WriteFiles(e.dir, n, items);
    SwitchOver(e, n, items);
    StackOne(SSTable(n, items));
    EmptyLayer();
    assert e.Abs() == After(e.crc, s, Restore(items));
  }

  /** The table, then the log file, then the marker. */
  method WriteFiles(dir: Dir, n: nat, items: seq<Item>)
    requires n !in dir.wals
    modifies dir
    ensures dir.tables == old(dir.tables)[n := Some(items)] && dir.wals == old(dir.wals)[n := []] && dir.marker == n
  {
    dir.tables := dir.tables[n := Some(items)];
    dir.OpenLog(n);
    dir.marker := n;
  }

  method SwitchOver(e: Engine, n: nat, items: seq<Item>)
    requires e.immutable == null
    modifies e
    ensures e.sstables == [SSTable(n, items)] && e.wal == n && e.nextFlushSeq == n + 1 && e.nextWALSeq == n + 1 && !e.flushErr
    ensures e.hist == ItemOps(items) && e.immutable == null && e.mem.Valid() && e.mem.contents == [] && fresh(e.mem) && fresh(e.mem.repr)
    ensures e.nextSeq == old(e.nextSeq)
  {
    e.sstables, e.wal, e.nextFlushSeq, e.nextWALSeq, e.flushErr, e.hist := [SSTable(n, items)], n, n + 1, n + 1, false, ItemOps(items);
    e.mem := new Memtable();
  }

  lemma StackOne(t: SSTable)
    ensures Stack([t]) == LayerOf(t.items)
  {
    hide LayerOf;
    assert [t][1..] == [];
    assert Stack([]) == map[];
  }

  // the files a restore replaces

  /** Superseded files are removed one by one; the store does not change. */
  method Cleanup(e: Engine, olds: seq<SSTable>, oldWal: nat)
    requires e.Valid() && e.immutable == null && !e.flushErr && oldWal < e.dir.marker && oldWal != e.wal
    requires forall i :: 0 <= i < |olds| ==> olds[i].number < e.dir.marker
    modifies e.dir`tables, e.dir`wals
    ensures e.Valid() && e.Now() == old(e.Now()) && e.hist == old(e.hist) && (old(e.Lone()) ==> e.Lone())
    ensures oldWal !in e.dir.wals && forall i :: 0 <= i < |olds| ==> olds[i].number !in e.dir.tables
  {
    hide LayerOf, Good, Memtable.Valid, Stack, Written;
    for i := 0 to |olds|
      invariant e.Valid() && e.Now() == old(e.Now()) && e.dir.wals == old(e.dir.wals)
      invariant forall j :: 0 <= j < i ==> olds[j].number !in e.dir.tables
    {
      RemoveTableGood(e.crc, e.Abs(), olds[i].number);
      e.dir.tables := e.dir.tables - {olds[i].number};
    }
    if oldWal in e.dir.wals {
      RemoveWalGood(e.crc, e.Abs(), oldWal);
      e.dir.wals := e.dir.wals - {oldWal};
    }
  }

  /** What RestoreSnapshot can make of its bytes. */
  ghost predicate Restorable(data: Bytes) { DecodePairs(data).Some? && DistinctKeys(DecodePairs(data).value) }

  /**
   * RestoreSnapshot: refused while a flush runs or when the bytes are malformed.
   * Entries that repeat a key are found out only while the table is being written,
   * which leaves it half-written and the engine as it was.
   */
  method RestoreSnapshot(e: Engine, data: Bytes) returns (ok: bool)
    requires e.Valid()
    modifies e, e.dir
    ensures ok <==> old(e.immutable) == null && Restorable(data)
    ensures e.Valid() && (ok ==> e.immutable == null && !e.flushErr && fresh(e.mem.repr))
    ensures e.nextSeq == old(e.nextSeq)
    ensures ok ==> forall l: Layer :: Represents(DecodePairs(data).value, l) ==> SameAnswers(View(e.Now()), l)
    ensures !ok ==> unchanged(e) && e.dir.wals == old(e.dir.wals) && e.dir.marker == old(e.dir.marker)
    ensures !ok && (old(e.immutable) != null || DecodePairs(data).None?) ==> e.Abs() == old(e.Abs())
    ensures !ok && old(e.immutable) == null && DecodePairs(data).Some? ==>
              Possible(e.crc, old(e.Abs()), RestoreFail) && e.Abs() == After(e.crc, old(e.Abs()), RestoreFail)
    ensures ok || old(e.Lone()) ==> e.Lone()
    ensures ok ==> old(e.wal) !in e.dir.wals && forall i :: 0 <= i < |old(e.sstables)| ==> old(e.sstables)[i].number !in e.dir.tables
  {
    hide LayerOf, Good, Memtable.Valid, Stack, Written, Represents, SameAnswers, DistinctKeys, DecodePairs, Sorted, Nondecreasing, Rearranges, Possible, After;
    if e.immutable != null { return false; }
    var entries := DecodeEntries(data);
    if entries.None? { return false; }
    var r, perm := SortPairs(entries.value);
    DistinctEither(r, entries.value, perm);
    var items;
    ok, items := TableItems(r);
    if !ok {
      LeaveHalf(e);
      return;
    }
    var olds, oldWal := e.sstables, e.wal;
    WalBelow(e.crc, e.Abs());
    Commit(e, items);
    Cleanup(e, olds, oldWal);
    ViewOne(e.crc, e.Abs(), items);
    forall l: Layer | Represents(entries.value, l)
      ensures SameAnswers(View(e.Now()), l)
    {
      RestoredAnswers(items, r, entries.value, perm, l);
    }
  }

  method LeaveHalf(e: Engine)
    requires e.Valid() && e.immutable == null
    modifies e.dir
    ensures e.Valid() && e.dir.wals == old(e.dir.wals) && e.dir.marker == old(e.dir.marker)
    ensures Possible(e.crc, old(e.Abs()), RestoreFail) && e.Abs() == After(e.crc, old(e.Abs()), RestoreFail)
  {
    hide LayerOf, Good, Memtable.Valid, Stack, Written, Possible, After;
    RestoreFails(e.crc, e.Abs());
    var n := if e.nextWALSeq > e.nextFlushSeq then e.nextWALSeq else e.nextFlushSeq;
    e.dir.tables := e.dir.tables[n := None];
  }

  lemma RestoreFails(crc: Checksum, s: State)
    requires Good(crc, s) && s.up.Some? && !Frozen(s.up.value)
    ensures Possible(crc, s, RestoreFail) && Good(crc, After(crc, s, RestoreFail))
    ensures After(crc, s, RestoreFail) == s.(disk := s.disk.(tables := s.disk.tables[RestoreNumber(s.up.value) := None]))
  {
    hide Good;
    RestoreFailGood(crc, s);
  }

  lemma WalBelow(crc: Checksum, s: State)
    requires Good(crc, s) && s.up.Some?
    ensures s.up.value.wal < s.up.value.nextWal
  {
    hide LayerOf, Tables, Logs, Written, Holding, ValidLen, LogLayer;
  }

  lemma ViewOne(crc: Checksum, s: State, items: seq<Item>)
    requires Good(crc, s) && s.up.Some? && s.up.value.flush.Idle? && s.hist == ItemOps(items)
    ensures View(s.up.value) == LayerOf(items)
  {
    OpenView(crc, s);
  }

  /**
   * A snapshot taken from one engine and restored into another makes every read of
   * the second answer as the first does, whatever order the keys were visited in.
   */
  method Transfer(a: Engine, b: Engine) returns (ok: bool)
    requires a.Valid() && b.Valid() && b.immutable == null && {b, b.dir} !! {a, a.dir} + a.mem.repr
    requires a.immutable != null ==> {b, b.dir} !! a.immutable.repr
    requires forall ps :: Represents(ps, View(a.Now())) ==> |EncodePairs(ps)| < TwoTo32
    modifies b, b.dir
    ensures ok && b.Valid() && SameAnswers(View(b.Now()), View(a.Now()))
    ensures View(a.Now()) == old(View(a.Now()))
  {
    hide LayerOf, Good, Memtable.Valid, Stack, Written, Represents, SameAnswers, DecodePairs, EncodePairs, View;
    var data, ps := TakeSnapshot(a);
    PairsBack(ps);
    assert DistinctKeys(ps) by { RepresentsDistinct(ps, View(a.Now())); }
    ok := RestoreSnapshot(b, data);
  }

  lemma RepresentsDistinct(ps: seq<Pair>, l: Layer)
    requires Represents(ps, l)
    ensures DistinctKeys(ps)
  {
  }
}
