/** Every step keeps the invariant. */
module EngineInvariant {
  import opened Bytes
  import opened RaftTypes
  import opened Runs
  import opened Wal
  import opened Stores
  import opened EngineSteps

  // ----------------------------------------------------------- what an open engine's files hold

  lemma UpLogs(crc: Checksum, d: Disk, r: Running, lo: nat)
    requires UpFiles(crc, d, r) && lo <= FirstWal(r)
    ensures Logs(crc, d.wals, lo, r.nextWal) == Logs(crc, d.wals, lo, FirstWal(r)) + FrozenLayer(r) + r.mem
  {
    hide LogLayer, Tables, Logs;
    LogsLast(crc, d.wals, lo, r.wal);
    if r.flush.Busy? { LogsToActive(crc, d, r, lo); }
  }

  lemma LogsToActive(crc: Checksum, d: Disk, r: Running, lo: nat)
    requires UpFiles(crc, d, r) && r.flush.Busy? && lo <= r.flush.wal
    ensures Logs(crc, d.wals, lo, r.wal) == Logs(crc, d.wals, lo, r.flush.wal) + r.flush.layer
  {
    hide LogLayer, Logs, Tables;
    LogsSplit(crc, d.wals, lo, r.flush.wal + 1, r.wal);
    LogsLast(crc, d.wals, lo, r.flush.wal);
    LogsNone(crc, d.wals, r.flush.wal + 1, r.wal);
  }

  lemma LogsLast(crc: Checksum, wals: map<nat, Bytes>, lo: nat, n: nat)
    requires lo <= n
    ensures Logs(crc, wals, lo, n + 1) == Logs(crc, wals, lo, n) + LogAt(crc, wals, n)
  {
  }

  lemma UpTables(crc: Checksum, d: Disk, r: Running)
    requires UpFiles(crc, d, r)
    ensures var all := Tables(d.tables, d.marker, r.nextFlush); all == r.tables || all == r.tables + FrozenLayer(r)
  {
    hide LogLayer, Logs, ValidLen;
    if r.flush.Busy? { assert Tables(d.tables, d.marker, r.nextFlush) == r.tables + TableAt(d.tables, r.flush.number); }
  }

  lemma Covered(v: Layer, x: Layer, a: Layer, f: Layer, m: Layer, store: Layer)
    requires Holding(v, a, f, m, store) && (x == map[] || x == f)
    ensures v + x + (a + f + m) == store
  {
    forall key | key in store || key in v || key in a || key in f || key in m
      ensures key in v + x + (a + f + m) && key in store && (v + x + (a + f + m))[key] == store[key]
    {
      assert store[key] == (v + f + m)[key] == (v + a + f + m)[key];
    }
  }

  lemma HoldingMore(v: Layer, a: Layer, m: Layer, l: Layer, store: Layer)
    requires Holding(v, a, map[], m, store)
    ensures Holding(v, a, map[], m + l, store + l)
  {
    CoverAssoc(v + map[], m, l);
    CoverAssoc(v + a + map[], m, l);
  }

  lemma HoldingFreeze(v: Layer, a: Layer, m: Layer, store: Layer)
    requires Holding(v, a, map[], m, store)
    ensures Holding(v, a, m, map[], store)
  {
    assert v + map[] + m == v + m + map[];
    assert v + a + map[] + m == v + a + m + map[];
  }

  lemma HoldingInstall(v: Layer, a: Layer, f: Layer, m: Layer, store: Layer)
    requires Holding(v, a, f, m, store)
    ensures Holding(v + f, a + f, map[], m, store)
  {
    Covered(v, f, a, f, m, store);
    CoverAssoc(v + f, a + f, m);
    assert v + f + map[] == v + f && v + f + (a + f) + map[] == v + f + (a + f);
  }

  /** An engine stopped at any point can be recovered from its files. */
  lemma UpRecovers(crc: Checksum, d: Disk, r: Running, store: Layer)
    requires UpFiles(crc, d, r) && UpHolds(crc, d, r, store)
    ensures Recovers(crc, d, store)
    ensures Tables(d.tables, d.marker, r.nextFlush) + Logs(crc, d.wals, d.marker, r.nextWal) == store
  {
    hide Tables, Logs, LogLayer, Recovered, Holding;
    UpLogs(crc, d, r, d.marker);
    UpTables(crc, d, r);
    var all := Tables(d.tables, d.marker, r.nextFlush);
    var x := if all == r.tables then map[] else FrozenLayer(r);
    Covered(r.tables, x, Logs(crc, d.wals, d.marker, FirstWal(r)), FrozenLayer(r), r.mem, store);
    assert all == r.tables + x by { assert r.tables + map[] == r.tables; }
    forall hi: nat | Bounds(d, hi)
      ensures Recovered(crc, d, hi) == store
    {
      RecoveredTo(crc, d, r.nextFlush, r.nextWal, hi);
    }
  }

  // --------------------------------------------------------------------- while closed

  /** Cutting off a torn tail changes nothing. */
  lemma TrimGood(crc: Checksum, s: State, n: nat)
    requires Good(crc, s) && s.up.None? && n in s.disk.wals
    ensures Good(crc, After(crc, s, Trim(n)))
  {
    hide Records, ValidLen, Written, OpsOf;
    var d := s.disk;
    var e := d.(wals := d.wals[n := d.wals[n][..ValidLen(crc, d.wals[n])]]);
    TruncateOnce(crc, d.wals[n]);
    forall hi: nat | Bounds(e, hi)
      ensures Recovered(crc, e, hi) == Written(s.hist)
    {
      assert n in e.wals;
      assert Bounds(d, hi) by { assert forall k :: k in d.wals ==> k in e.wals; }
      LogsSame(crc, d.wals, e.wals, d.marker, hi);
    }
    NumberedKeeps(d, e);
  }

  lemma NumberedKeeps(d: Disk, e: Disk)
    requires Numbered(d) && e.marker == d.marker && d.wals.Keys <= e.wals.Keys && d.tables.Keys <= e.tables.Keys
    ensures Numbered(e)
  {
    if d.marker > 0 {
      var n :| n in d.wals && d.marker <= n;
      assert n in d.wals.Keys && d.marker in d.tables.Keys;
      assert n in e.wals && d.marker in e.tables;
    }
  }

  lemma NextLive(d: Disk, wal: nat, flush: nat)
    requires Numbered(d) && IsNext(d.wals.Keys, d.marker, wal) && IsNext(d.tables.Keys, d.marker, flush)
    ensures d.marker <= wal && d.marker <= flush && wal !in d.wals
  {
    if d.marker > 0 {
      var n :| n in d.wals && d.marker <= n;
      assert n in d.wals.Keys && d.marker in d.tables.Keys;
    }
    assert wal in d.wals ==> wal in d.wals.Keys;
  }

  /** The first records of a relogged memtable are entries of it. */
  lemma RelogPart(recs: seq<Record>, l: Layer, k: nat)
    requires Relogs(recs, l) && k <= |recs|
    ensures var part := Written(OpsOf(recs[..k])); forall key :: key in part ==> key in l && l[key] == part[key]
  {
    hide Written, OpsOf;
    var part, ops := OpsOf(recs[..k]), OpsOf(recs);
    OpsTake(recs, k);
    forall key | key in Written(part)
      ensures key in l && l[key] == Written(part)[key]
    {
      WrittenKeys(part, key);
      var i :| 0 <= i < |part| && part[i].key == key;
      assert part[i] == ops[i] == OpOf(recs[i]);
      WrittenAt(part, i);
      WrittenAt(ops, i);
    }
  }

  /** What a log file numbered n+1 covers when the older ones are some of those it was made from. */
  lemma {:induction false} LogsWithin(crc: Checksum, wals: map<nat, Bytes>, gone: set<nat>, lo: nat, hi: nat, key: Bytes)
    requires key in Logs(crc, wals - gone, lo, hi)
    ensures key in Logs(crc, wals, lo, hi)
    decreases hi
  {
    hide LogLayer;
    if lo < hi && key !in LogAt(crc, wals, hi - 1) {
      LogsWithin(crc, wals, gone, lo, hi - 1, key);
    }
  }

  /** The log files after a relog: the old ones still there, then the new one. */
  lemma ReloggedLogs(crc: Checksum, d: Disk, wal: nat, b: Bytes, gone: set<nat>)
    requires d.marker <= wal && wal !in d.wals
    ensures var e := Reopened(crc, d, wal, b, gone);
            Logs(crc, e.wals, e.marker, wal + 1) == Logs(crc, d.wals - gone, d.marker, wal) + LogLayer(crc, b)
  {
    hide LogLayer;
    var e := Reopened(crc, d, wal, b, gone);
    LogsSame(crc, e.wals, d.wals - gone, d.marker, wal);
  }

  lemma Keep(l: Layer, part: Layer)
    requires forall key :: key in part ==> key in l && l[key] == part[key]
    ensures l + part == l
  {
  }

  lemma Absorb(older: Layer, l: Layer)
    requires forall key :: key in older ==> key in l
    ensures older + l == l
  {
  }

  /** Stopping inside Open, anywhere between its disk operations, loses nothing. */
  lemma OpenCrashGood(crc: Checksum, s: State, wal: nat, flush: nat, recs: seq<Record>, cut: nat, gone: set<nat>)
    requires Good(crc, s) && Enabled(crc, s, OpenCrash(wal, flush, recs, cut, gone))
    ensures Good(crc, After(crc, s, OpenCrash(wal, flush, recs, cut, gone)))
  {
    hide Logs, Tables, Written, OpsOf, EncodeAll, Records, Relogs, Recovered;
    var d, l := s.disk, Logs(crc, s.disk.wals, s.disk.marker, wal);
    var b := EncodeAll(crc, recs)[..cut];
    var e := Reopened(crc, d, wal, b, gone);
    NextLive(d, wal, flush);
    CrashedOpen(crc, d, wal, recs, cut, gone);
    forall hi: nat | Bounds(e, hi)
      ensures Recovered(crc, e, hi) == Written(s.hist)
    {
      var top := if hi > wal then hi else wal;
      assert forall n :: n in d.wals ==> n in gone || n in e.wals;
      assert Bounds(d, top) by {
        forall n | n in d.wals
          ensures n < top
        {
          if n in gone { assert n in LiveWals(d); assert n in d.wals.Keys; }
        }
      }
      RecoveredTo(crc, d, flush, wal, top);
      RecoveredTo(crc, e, flush, wal + 1, hi);
    }
    assert Numbered(e) by { assert wal in e.wals; }
  }

  lemma CrashedOpen(crc: Checksum, d: Disk, wal: nat, recs: seq<Record>, cut: nat, gone: set<nat>)
    requires d.marker <= wal && wal !in d.wals && Relogs(recs, Logs(crc, d.wals, d.marker, wal))
    requires cut <= |EncodeAll(crc, recs)| && (gone != {} ==> cut == |EncodeAll(crc, recs)|)
    ensures var e := Reopened(crc, d, wal, EncodeAll(crc, recs)[..cut], gone);
            Logs(crc, e.wals, e.marker, wal + 1) == Logs(crc, d.wals, d.marker, wal)
  {
    hide Logs, Written, OpsOf, EncodeAll, Records, Relogs, LogLayer;
    var l, b := Logs(crc, d.wals, d.marker, wal), EncodeAll(crc, recs)[..cut];
    ReloggedLogs(crc, d, wal, b, gone);
    if gone == {} {
      assert d.wals - gone == d.wals;
      RelogCut(crc, recs, l, cut);
      Keep(l, LogLayer(crc, b));
    } else {
      RelogWhole(crc, recs, l);
      assert b == EncodeAll(crc, recs);
      forall key | key in Logs(crc, d.wals - gone, d.marker, wal)
        ensures key in l
      {
        LogsWithin(crc, d.wals, gone, d.marker, wal, key);
      }
      Absorb(Logs(crc, d.wals - gone, d.marker, wal), l);
    }
  }

  lemma RelogCut(crc: Checksum, recs: seq<Record>, l: Layer, cut: nat)
    requires Relogs(recs, l) && cut <= |EncodeAll(crc, recs)|
    ensures var part := LogLayer(crc, EncodeAll(crc, recs)[..cut]); forall key :: key in part ==> key in l && l[key] == part[key]
  {
    hide EncodeAll, Records, Written, OpsOf;
    TornTail(crc, recs, cut);
    RelogPart(recs, l, Whole(crc, recs, cut));
  }

  lemma RelogWhole(crc: Checksum, recs: seq<Record>, l: Layer)
    requires Relogs(recs, l)
    ensures LogLayer(crc, EncodeAll(crc, recs)) == l && ValidLen(crc, EncodeAll(crc, recs)) == |EncodeAll(crc, recs)|
  {
    hide EncodeAll, Records, Written, OpsOf;
    EncodedReplays(crc, recs);
  }

  /** Opening brings back exactly what the store should hold. */
  lemma OpenGood(crc: Checksum, s: State, wal: nat, flush: nat, recs: seq<Record>)
    requires Good(crc, s) && Enabled(crc, s, Open(wal, flush, recs))
    ensures Good(crc, After(crc, s, Open(wal, flush, recs)))
    ensures View(After(crc, s, Open(wal, flush, recs)).up.value) == Written(s.hist)
  {
    hide Logs, Tables, Written, OpsOf, EncodeAll, Records, Relogs, Recovered, LogLayer;
    var d, l := s.disk, Logs(crc, s.disk.wals, s.disk.marker, wal);
    var e := After(crc, s, Open(wal, flush, recs)).disk;
    var r := After(crc, s, Open(wal, flush, recs)).up.value;
    NextLive(d, wal, flush);
    RelogWhole(crc, recs, l);
    assert wal in e.wals;
    forall n | n in e.wals
      ensures n == wal || n < d.marker
    {
      if n != wal { assert n in d.wals; assert n !in LiveWals(d); }
    }
    LogsNone(crc, e.wals, e.marker, wal);
    TableBelow(d, flush);
    LiveAnswer(crc, d, wal, flush, Written(s.hist));
    assert UpFiles(crc, e, r);
    assert r.tables + map[] + map[] + l == r.tables + map[] + l == r.tables + l;
  }

  lemma TableBelow(d: Disk, flush: nat)
    requires IsNext(d.tables.Keys, d.marker, flush) && d.marker <= flush
    ensures forall n :: n in d.tables ==> n < flush
  {
    forall n | n in d.tables
      ensures n < flush
    {
      assert n in d.tables.Keys;
    }
  }

  lemma LiveAnswer(crc: Checksum, d: Disk, wal: nat, flush: nat, store: Layer)
    requires Recovers(crc, d, store) && IsNext(d.wals.Keys, d.marker, wal) && IsNext(d.tables.Keys, d.marker, flush)
    requires d.marker <= wal && d.marker <= flush
    ensures Tables(d.tables, d.marker, flush) + Logs(crc, d.wals, d.marker, wal) == store
  {
    hide Logs, Tables, Recovered;
    var hi := if wal > flush then wal else flush;
    assert Bounds(d, hi) by {
      forall n | n in d.wals
        ensures n < hi
      {
        assert n in d.wals.Keys;
      }
      TableBelow(d, flush);
    }
    assert forall n :: n in d.wals ==> n in d.wals.Keys;
    assert forall n :: n in d.tables ==> n in d.tables.Keys;
    RecoveredTo(crc, d, flush, wal, hi);
  }

  // ------------------------------------------------------------------------ batches

  /** A batch's records, or those before a cut, behind what the log already holds. */
  lemma BatchLog(crc: Checksum, b: Bytes, recs: seq<Record>, cut: nat)
    requires AllFit(recs) && ValidLen(crc, b) == |b| && cut <= |EncodeAll(crc, recs)|
    ensures LogLayer(crc, b + EncodeAll(crc, recs)[..cut]) == LogLayer(crc, b) + Written(OpsOf(recs[..Whole(crc, recs, cut)]))
    ensures var c := b + EncodeAll(crc, recs); ValidLen(crc, c) == |c| && LogLayer(crc, c) == LogLayer(crc, b) + Written(OpsOf(recs))
  {
    hide EncodeAll, Records, Written, OpsOf, ValidLen;
    TornAppend(crc, b, recs, cut);
    OpsAppend(Records(crc, b), recs[..Whole(crc, recs, cut)]);
    WrittenAppend(OpsOf(Records(crc, b)), OpsOf(recs[..Whole(crc, recs, cut)]));
    AppendedReplay(crc, b, recs);
    OpsAppend(Records(crc, b), recs);
    WrittenAppend(OpsOf(Records(crc, b)), OpsOf(recs));
  }

  /** Writing to the active log file. */
  lemma AppendKeeps(crc: Checksum, d: Disk, r: Running, b: Bytes, l: Layer, store: Layer)
    requires UpFiles(crc, d, r) && UpHolds(crc, d, r, store) && r.flush.Idle?
    requires LogLayer(crc, b) == r.mem + l
    ensures var e, q := d.(wals := d.wals[r.wal := b]), r.(mem := r.mem + l);
            UpFiles(crc, e, q) && UpHolds(crc, e, q, store + l)
  {
    hide LogLayer, Tables, Logs, Holding;
    var e := d.(wals := d.wals[r.wal := b]);
    LogsBelow(crc, d.wals, e.wals, d.marker, r.wal);
    HoldingMore(r.tables, Logs(crc, d.wals, d.marker, r.wal), r.mem, l, store);
  }

  lemma LogsBelow(crc: Checksum, a: map<nat, Bytes>, b: map<nat, Bytes>, lo: nat, hi: nat)
    requires forall n :: lo <= n < hi ==> (n in a <==> n in b) && (n in a ==> a[n] == b[n])
    ensures Logs(crc, a, lo, hi) == Logs(crc, b, lo, hi)
  {
    LogsSame(crc, a, b, lo, hi);
  }

  lemma TablesBelow(a: map<nat, TableFile>, b: map<nat, TableFile>, lo: nat, hi: nat)
    requires forall n :: lo <= n < hi ==> (n in a <==> n in b) && (n in a ==> a[n] == b[n])
    ensures Tables(a, lo, hi) == Tables(b, lo, hi)
  {
    TablesSame(a, b, lo, hi);
  }

  lemma BatchGood(crc: Checksum, s: State, recs: seq<Record>)
    requires Good(crc, s) && Enabled(crc, s, Batch(recs))
    ensures Good(crc, After(crc, s, Batch(recs)))
  {
    hide LogLayer, Tables, Logs, ValidLen, Written, OpsOf, EncodeAll, UpFiles, UpHolds;
    var d, r := s.disk, s.up.value;
    assert LogLayer(crc, d.wals[r.wal]) == r.mem by { ActiveLog(crc, d, r); }
    BatchLog(crc, d.wals[r.wal], recs, 0);
    AppendKeeps(crc, d, r, d.wals[r.wal] + EncodeAll(crc, recs), Written(OpsOf(recs)), Written(s.hist));
    WrittenAppend(s.hist, OpsOf(recs));
    NumberedKeeps(d, d.(wals := d.wals[r.wal := d.wals[r.wal] + EncodeAll(crc, recs)]));
  }

  lemma ActiveLog(crc: Checksum, d: Disk, r: Running)
    requires UpFiles(crc, d, r)
    ensures r.wal in d.wals && LogLayer(crc, d.wals[r.wal]) == r.mem
  {
  }

  /** A crash inside a batch keeps the records that were written whole, and those before. */
  lemma BatchCrashGood(crc: Checksum, s: State, recs: seq<Record>, cut: nat)
    requires Good(crc, s) && Enabled(crc, s, BatchCrash(recs, cut))
    ensures Good(crc, After(crc, s, BatchCrash(recs, cut)))
  {
    hide LogLayer, Tables, Logs, ValidLen, Written, OpsOf, EncodeAll, UpFiles, UpHolds, Recovers;
    var d, r := s.disk, s.up.value;
    var b, ops := d.wals[r.wal] + EncodeAll(crc, recs)[..cut], OpsOf(recs[..Whole(crc, recs, cut)]);
    ActiveLog(crc, d, r);
    BatchLog(crc, d.wals[r.wal], recs, cut);
    AppendKeeps(crc, d, r, b, Written(ops), Written(s.hist));
    WrittenAppend(s.hist, ops);
    UpRecovers(crc, d.(wals := d.wals[r.wal := b]), r.(mem := r.mem + Written(ops)), Written(s.hist + ops));
    NumberedKeeps(d, d.(wals := d.wals[r.wal := b]));
  }

  // ------------------------------------------------------------------------ flushes

  lemma FreezeGood(crc: Checksum, s: State)
    requires Good(crc, s) && Enabled(crc, s, Freeze)
    ensures Good(crc, After(crc, s, Freeze))
  {
    hide LogLayer, Tables, Logs, Written, Holding, ValidLen;
    var d, r := s.disk, s.up.value;
    var e := After(crc, s, Freeze).disk;
    assert r.wal in e.wals && r.nextWal in e.wals;
    LogsBelow(crc, d.wals, e.wals, d.marker, r.wal);
    EmptyLog(crc);
    HoldingFreeze(r.tables, Logs(crc, d.wals, d.marker, r.wal), r.mem, Written(s.hist));
    NumberedKeeps(d, e);
  }

  lemma EmptyLog(crc: Checksum)
    ensures LogLayer(crc, []) == map[] && ValidLen(crc, []) == 0
  {
  }

  /** Writing the flush's own table: nothing else is in its place. */
  lemma TableKeeps(crc: Checksum, s: State, t: TableFile)
    requires Good(crc, s) && s.up.Some? && Frozen(s.up.value) && (t.Some? ==> LayerOf(t.value) == s.up.value.flush.layer)
    ensures Good(crc, s.(disk := s.disk.(tables := s.disk.tables[s.up.value.flush.number := t])))
  {
    hide LogLayer, Tables, Logs, Written, Holding, ValidLen;
    var d, r := s.disk, s.up.value;
    var e := d.(tables := d.tables[r.flush.number := t]);
    TablesBelow(d.tables, e.tables, d.marker, r.flush.number);
    NumberedKeeps(d, e);
  }

  lemma InstallGood(crc: Checksum, s: State)
    requires Good(crc, s) && Enabled(crc, s, Install)
    ensures Good(crc, After(crc, s, Install))
  {
    hide LogLayer, Logs, Written, Tables, Holding, ValidLen;
    var d, r := s.disk, s.up.value;
    TablesLast(d.tables, d.marker, r.flush.number);
    LogsToActive(crc, d, r, d.marker);
    HoldingInstall(r.tables, Logs(crc, d.wals, d.marker, r.flush.wal), r.flush.layer, r.mem, Written(s.hist));
  }

  lemma TablesLast(tables: map<nat, TableFile>, lo: nat, n: nat)
    requires lo <= n
    ensures Tables(tables, lo, n + 1) == Tables(tables, lo, n) + TableAt(tables, n)
  {
  }

  lemma FlushFailGood(crc: Checksum, s: State)
    requires Good(crc, s) && Enabled(crc, s, FlushFail)
    ensures Good(crc, After(crc, s, FlushFail))
  {
    hide LogLayer, Logs, Written, Tables, ValidLen, Holding;
  }

  // ------------------------------------------------------------------- removing files

  lemma UnusedBelow(crc: Checksum, d: Disk, r: Running, n: nat)
    requires UpFiles(crc, d, r) && n in d.wals && Unused(r, n)
    ensures n < FirstWal(r)
  {
    hide LogLayer, Tables;
  }

  lemma LogsWithout(crc: Checksum, wals: map<nat, Bytes>, n: nat, lo: nat, hi: nat)
    requires lo <= n < hi
    ensures Logs(crc, wals - {n}, lo, hi) == Logs(crc, wals, lo, n) + Logs(crc, wals, n + 1, hi)
    ensures Logs(crc, wals, lo, hi) == Logs(crc, wals, lo, n) + LogAt(crc, wals, n) + Logs(crc, wals, n + 1, hi)
  {
    hide LogAt, Logs;
    LogsSplit(crc, wals, lo, n + 1, hi);
    LogsLast(crc, wals, lo, n);
    LogsSplit(crc, wals - {n}, lo, n + 1, hi);
    LogsLast(crc, wals - {n}, lo, n);
    assert LogAt(crc, wals - {n}, n) == map[] by { NotThere(crc, wals, n); }
    LogsBelow(crc, wals, wals - {n}, lo, n);
    LogsBelow(crc, wals, wals - {n}, n + 1, hi);
  }

  lemma NotThere(crc: Checksum, wals: map<nat, Bytes>, n: nat)
    ensures LogAt(crc, wals - {n}, n) == map[]
  {
  }

  /** The entries of a log file that nothing newer covers are the store's. */
  ghost predicate Agree(own: Layer, older: Layer, newer: Layer) {
    forall key :: key in own && key in older && key !in newer ==> older[key] == own[key]
  }

  lemma HoldingRemove(v: Layer, o: Layer, w: Layer, ns: Layer, f: Layer, m: Layer, store: Layer)
    requires Holding(v, o + w + ns, f, m, store) && Agree(w, o, ns + f + m)
    ensures Holding(v, o + ns, f, m, store)
  {
    var all := v + (o + ns) + f + m;
    assert all.Keys == store.Keys by {
      assert store.Keys == v.Keys + f.Keys + m.Keys && store.Keys == v.Keys + (o.Keys + w.Keys + ns.Keys) + f.Keys + m.Keys;
    }
    forall key | key in store
      ensures key in all && all[key] == store[key]
    {
      assert key in store.Keys && key in all.Keys;
      assert store[key] == (v + f + m)[key] == (v + (o + w + ns) + f + m)[key];
    }
  }

  lemma RemoveNeeds(v: Layer, x: Layer, o: Layer, w: Layer, ns: Layer, f: Layer, m: Layer, store: Layer)
    requires Holding(v, o + w + ns, f, m, store) && v + x + (o + ns + f + m) == store
    ensures Agree(w, o, ns + f + m)
  {
    forall key | key in w && key in o && key !in ns + f + m
      ensures o[key] == w[key]
    {
      assert store[key] == (v + (o + w + ns) + f + m)[key] == (v + x + (o + ns + f + m))[key];
    }
  }

  /** The live log files as seen from file n. */
  lemma AroundLog(crc: Checksum, d: Disk, r: Running, n: nat)
    requires UpFiles(crc, d, r) && n in d.wals && Unused(r, n) && d.marker <= n
    ensures n < FirstWal(r)
    ensures var o, w, ns := Logs(crc, d.wals, d.marker, n), LogAt(crc, d.wals, n), Logs(crc, d.wals, n + 1, FirstWal(r));
            && Logs(crc, d.wals, d.marker, FirstWal(r)) == o + w + ns
            && Logs(crc, d.wals - {n}, d.marker, FirstWal(r)) == o + ns
            && Logs(crc, d.wals, n + 1, r.nextWal) == ns + FrozenLayer(r) + r.mem
  {
    hide LogLayer, Tables, Logs, LogAt;
    UnusedBelow(crc, d, r, n);
    LogsWithout(crc, d.wals, n, d.marker, FirstWal(r));
    UpLogs(crc, d, r, n + 1);
  }

  lemma RemoveFiles(crc: Checksum, d: Disk, r: Running, n: nat)
    requires UpFiles(crc, d, r) && Clean(crc, d, r) && Unused(r, n) && Numbered(d)
    ensures var e := d.(wals := d.wals - {n}); UpFiles(crc, e, r) && Clean(crc, e, r) && Numbered(e)
  {
    hide LogLayer, Tables, ValidLen;
    var e := d.(wals := d.wals - {n});
    assert r.wal in e.wals;
  }

  lemma RemoveWalGood(crc: Checksum, s: State, n: nat)
    requires Good(crc, s) && Enabled(crc, s, RemoveWal(n))
    ensures Good(crc, After(crc, s, RemoveWal(n)))
  {
    hide LogLayer, LogAt, Tables, Logs, Written, Holding, ValidLen, UpFiles, Clean;
    var d, r := s.disk, s.up.value;
    RemoveFiles(crc, d, r, n);
    if n in d.wals && d.marker <= n {
      AroundLog(crc, d, r, n);
      HoldingRemove(r.tables, Logs(crc, d.wals, d.marker, n), LogAt(crc, d.wals, n), Logs(crc, d.wals, n + 1, FirstWal(r)),
                    FrozenLayer(r), r.mem, Written(s.hist));
    } else {
      LogsBelow(crc, d.wals, d.wals - {n}, d.marker, FirstWal(r));
    }
  }

  /** A log file may go exactly when no older one left on disk contradicts it. */
  lemma RemovalExact(crc: Checksum, s: State, n: nat)
    requires Good(crc, s) && s.up.Some? && Unused(s.up.value, n) && n in s.disk.wals
    ensures SafeRemoval(crc, s.disk, s.up.value, n) <==> Recovers(crc, s.disk.(wals := s.disk.wals - {n}), Written(s.hist))
  {
    hide LogLayer, LogAt, Tables, Logs, Written, Holding, ValidLen, UpFiles, Clean, Recovers, SafeRemoval;
    var d, r, e := s.disk, s.up.value, s.disk.(wals := s.disk.wals - {n});
    RemoveFiles(crc, d, r, n);
    if SafeRemoval(crc, d, r, n) {
      RemoveWalGood(crc, s, n);
      UpRecovers(crc, e, r, Written(s.hist));
    }
    if Recovers(crc, e, Written(s.hist)) { RecoveredSafe(crc, d, r, n, Written(s.hist)); }
  }

  lemma RecoveredSafe(crc: Checksum, d: Disk, r: Running, n: nat, store: Layer)
    requires UpFiles(crc, d, r) && UpHolds(crc, d, r, store) && Unused(r, n) && n in d.wals
    requires UpFiles(crc, d.(wals := d.wals - {n}), r) && Recovers(crc, d.(wals := d.wals - {n}), store)
    ensures SafeRemoval(crc, d, r, n)
  {
    hide LogLayer, LogAt, Tables, Logs, Holding, Recovered, Recovers, UpFiles;
    var e, t := d.(wals := d.wals - {n}), Tables(d.tables, d.marker, r.nextFlush);
    if d.marker <= n {
      AroundLog(crc, d, r, n);
      var o, w, ns := Logs(crc, d.wals, d.marker, n), LogAt(crc, d.wals, n), Logs(crc, d.wals, n + 1, FirstWal(r));
      UpLogs(crc, e, r, e.marker);
      UpTables(crc, d, r);
      var x := if t == r.tables then map[] else FrozenLayer(r);
      assert t == r.tables + x by { assert r.tables + map[] == r.tables; }
      RecoveredUp(crc, e, r, store);
      RemoveNeeds(r.tables, x, o, w, ns, FrozenLayer(r), r.mem, store);
    }
  }

  lemma RecoveredUp(crc: Checksum, d: Disk, r: Running, store: Layer)
    requires UpFiles(crc, d, r) && Recovers(crc, d, store)
    ensures Tables(d.tables, d.marker, r.nextFlush) + Logs(crc, d.wals, d.marker, r.nextWal) == store
  {
    hide LogLayer, Tables, Logs, Recovered;
    var hi := RestoreNumber(r) + 1;
    assert Bounds(d, hi);
    RecoveredTo(crc, d, r.nextFlush, r.nextWal, hi);
  }

  /** Oldest first is always safe. */
  lemma OldestSafe(crc: Checksum, d: Disk, r: Running, n: nat)
    requires forall k :: k in d.wals && d.marker <= k ==> n <= k
    ensures SafeRemoval(crc, d, r, n)
  {
    LogsNone(crc, d.wals, d.marker, n);
  }

  lemma RemoveTableGood(crc: Checksum, s: State, n: nat)
    requires Good(crc, s) && Enabled(crc, s, RemoveTable(n))
    ensures Good(crc, After(crc, s, RemoveTable(n)))
  {
    hide LogLayer, Tables, Logs, Written, Holding, ValidLen;
    var d, r := s.disk, s.up.value;
    TablesBelow(d.tables, d.tables - {n}, d.marker, FirstTable(r));
  }

  // ------------------------------------------------------------------------ restoring

  lemma RestoreGood(crc: Checksum, s: State, items: seq<Item>)
    requires Good(crc, s) && Enabled(crc, s, Restore(items))
    ensures Good(crc, After(crc, s, Restore(items)))
  {
    hide LogLayer, Logs, Written, ValidLen, Holding, Tables;
    var d, r := s.disk, s.up.value;
    var e, n := After(crc, s, Restore(items)).disk, RestoreNumber(r);
    assert n in e.wals && n in e.tables;
    EmptyLog(crc);
    TablesLast(e.tables, n, n);
    TablesNone(e.tables, n, n);
    LogsNone(crc, e.wals, n, n);
    HoldingOnly(LayerOf(items));
  }

  lemma HoldingOnly(l: Layer)
    ensures map[] + l == l && Holding(l, map[], map[], map[], l)
  {
  }

  /** The snapshot's table on disk, but not the marker. */
  ghost function Uncommitted(d: Disk, r: Running, t: TableFile, log: bool): Disk {
    var n := RestoreNumber(r);
    d.(wals := if log then d.wals[n := []] else d.wals, tables := d.tables[n := t])
  }

  lemma UncommittedTables(crc: Checksum, d: Disk, r: Running, t: TableFile, log: bool)
    requires UpFiles(crc, d, r)
    ensures Tables(Uncommitted(d, r, t, log).tables, d.marker, RestoreNumber(r) + 1)
            == Tables(d.tables, d.marker, r.nextFlush) + FileLayer(t)
  {
    hide LogLayer, Logs, Tables;
    var e, n := Uncommitted(d, r, t, log), RestoreNumber(r);
    TablesLast(e.tables, d.marker, n);
    TablesBelow(d.tables, e.tables, d.marker, n);
    TablesTo(d.tables, d.marker, r.nextFlush, n);
  }

  lemma UncommittedLogs(crc: Checksum, d: Disk, r: Running, t: TableFile, log: bool)
    requires UpFiles(crc, d, r)
    ensures Logs(crc, Uncommitted(d, r, t, log).wals, d.marker, RestoreNumber(r) + 1) == Logs(crc, d.wals, d.marker, r.nextWal)
  {
    hide LogLayer, Logs, Tables;
    var e, n := Uncommitted(d, r, t, log), RestoreNumber(r);
    EmptyLog(crc);
    LogsLast(crc, e.wals, d.marker, n);
    LogsBelow(crc, d.wals, e.wals, d.marker, n);
    LogsTo(crc, d.wals, d.marker, r.nextWal, n);
  }

  lemma UncommittedFinds(crc: Checksum, d: Disk, r: Running, t: TableFile, log: bool, hi: nat)
    requires UpFiles(crc, d, r) && Numbered(d) && Bounds(Uncommitted(d, r, t, log), hi)
    ensures Numbered(Uncommitted(d, r, t, log))
    ensures Recovered(crc, Uncommitted(d, r, t, log), hi)
            == Tables(d.tables, d.marker, r.nextFlush) + FileLayer(t) + Logs(crc, d.wals, d.marker, r.nextWal)
  {
    hide LogLayer, LogAt, TableAt, Logs, Tables, Recovered, UpFiles;
    var e, n := Uncommitted(d, r, t, log), RestoreNumber(r);
    NumberedKeeps(d, e);
    UncommittedBound(crc, d, r, t, log);
    RecoveredTo(crc, e, n + 1, n + 1, hi);
    UncommittedTables(crc, d, r, t, log);
    UncommittedLogs(crc, d, r, t, log);
  }

  lemma HarmlessMaps(t: Layer, l: Layer, logs: Layer)
    ensures t + l + logs == t + logs <==> forall key :: key in l && key !in logs ==> key in t && t[key] == l[key]
  {
    if t + l + logs == t + logs {
      forall key | key in l && key !in logs
        ensures key in t && t[key] == l[key]
      {
        assert key in t + l + logs;
        assert (t + l + logs)[key] == (t + logs)[key];
      }
    }
  }

  /** A snapshot whose marker was not written leaves the store alone exactly when its table adds nothing. */
  lemma UncommittedExact(crc: Checksum, s: State, items: seq<Item>, log: bool)
    requires Good(crc, s) && s.up.Some?
    ensures HarmlessTable(crc, s.disk, s.up.value, LayerOf(items))
            <==> Recovers(crc, Uncommitted(s.disk, s.up.value, Some(items), log), Written(s.hist))
  {
    hide LogLayer, Tables, Logs, Written, Holding, ValidLen, UpFiles, Clean, Recovered, Uncommitted;
    var d, r, e := s.disk, s.up.value, Uncommitted(s.disk, s.up.value, Some(items), log);
    UpRecovers(crc, d, r, Written(s.hist));
    HarmlessMaps(Tables(d.tables, d.marker, r.nextFlush), LayerOf(items), Logs(crc, d.wals, d.marker, r.nextWal));
    UncommittedBound(crc, d, r, Some(items), log);
    UncommittedFinds(crc, d, r, Some(items), log, RestoreNumber(r) + 1);
    forall hi: nat | Bounds(e, hi)
      ensures Recovered(crc, e, hi) == Recovered(crc, e, RestoreNumber(r) + 1)
    {
      UncommittedFinds(crc, d, r, Some(items), log, hi);
    }
  }

  lemma UncommittedBound(crc: Checksum, d: Disk, r: Running, t: TableFile, log: bool)
    requires UpFiles(crc, d, r)
    ensures Bounds(Uncommitted(d, r, t, log), RestoreNumber(r) + 1)
  {
    hide LogLayer, Logs, Tables;
  }

  lemma RestoreCrashGood(crc: Checksum, s: State, items: seq<Item>, whole: bool, log: bool)
    requires Good(crc, s) && Enabled(crc, s, RestoreCrash(items, whole, log))
    ensures Good(crc, After(crc, s, RestoreCrash(items, whole, log)))
  {
    hide LogLayer, Tables, Logs, Written, Holding, ValidLen, UpFiles, Clean, Recovered, HarmlessTable;
    var d, r := s.disk, s.up.value;
    var t := if whole then Some(items) else None;
    var e := Uncommitted(d, r, t, log);
    UncommittedBound(crc, d, r, t, log);
    UncommittedFinds(crc, d, r, t, log, RestoreNumber(r) + 1);
    if whole {
      UncommittedExact(crc, s, items, log);
    } else {
      UpRecovers(crc, d, r, Written(s.hist));
      forall hi: nat | Bounds(e, hi)
        ensures Recovered(crc, e, hi) == Written(s.hist)
      {
        UncommittedFinds(crc, d, r, t, log, hi);
        assert Tables(d.tables, d.marker, r.nextFlush) + map[] == Tables(d.tables, d.marker, r.nextFlush);
      }
    }
  }

  /** A restore that fails while writing its table leaves a half-written file, and the engine as it was. */
  lemma RestoreFailGood(crc: Checksum, s: State)
    requires Good(crc, s) && Enabled(crc, s, RestoreFail)
    ensures Good(crc, After(crc, s, RestoreFail))
  {
    hide LogLayer, Tables, Logs, Written, Holding, ValidLen;
    var d, r := s.disk, s.up.value;
    var e := d.(tables := d.tables[RestoreNumber(r) := None]);
    TablesBelow(d.tables, e.tables, d.marker, FirstTable(r));
    NumberedKeeps(d, e);
  }

  // ------------------------------------------------------------------------- all steps

  lemma CrashGood(crc: Checksum, s: State)
    requires Good(crc, s) && s.up.Some?
    ensures Good(crc, s.(up := None))
  {
    hide UpFiles, UpHolds, Recovers, Clean;
    UpRecovers(crc, s.disk, s.up.value, Written(s.hist));
  }

  lemma StepGood(crc: Checksum, s: State, a: Step)
    requires Good(crc, s) && Enabled(crc, s, a)
    ensures Good(crc, After(crc, s, a))
  {
    hide Good;
    match a
    case Trim(n) => TrimGood(crc, s, n);
    case Open(wal, flush, recs) => OpenGood(crc, s, wal, flush, recs);
    case OpenCrash(wal, flush, recs, cut, gone) => OpenCrashGood(crc, s, wal, flush, recs, cut, gone);
    case Batch(recs) => BatchGood(crc, s, recs);
    case BatchCrash(recs, cut) => BatchCrashGood(crc, s, recs, cut);
    case Freeze => FreezeGood(crc, s);
    case TableHalf => TableKeeps(crc, s, None);
    case TableDone(items) => TableKeeps(crc, s, Some(items));
    case Install => InstallGood(crc, s);
    case FlushFail => FlushFailGood(crc, s);
    case RemoveWal(n) => RemoveWalGood(crc, s, n);
    case RemoveTable(n) => RemoveTableGood(crc, s, n);
    case Restore(items) => RestoreGood(crc, s, items);
    case RestoreCrash(items, whole, log) => RestoreCrashGood(crc, s, items, whole, log);
    case RestoreFail => RestoreFailGood(crc, s);
    case Crash => CrashGood(crc, s);
  }

  /** Every step the code may take leaves a store that recovers to what it should hold, exactly when the step is orderly. */
  lemma StepExact(crc: Checksum, s: State, a: Step)
    requires Good(crc, s) && Possible(crc, s, a)
    ensures Orderly(crc, s, a) <==> Recovers(crc, After(crc, s, a).disk, Written(After(crc, s, a).hist))
  {
    hide UpFiles, UpHolds, Clean, Recovers, Written, SafeRemoval, HarmlessTable, Opens;
    if Orderly(crc, s, a) {
      StepGood(crc, s, a);
      var t := After(crc, s, a);
      if t.up.Some? { UpRecovers(crc, t.disk, t.up.value, Written(t.hist)); }
    } else if a.RemoveWal? {
      RemovalExact(crc, s, a.n);
    } else {
      UncommittedExact(crc, s, a.items, a.log);
    }
  }
}
