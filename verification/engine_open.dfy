/** Opening a store: discovering its files, replaying its log files, and logging the result again. */
module EngineOpening {
  import opened Bytes
  import opened RaftTypes
  import opened ByteOrder
  import opened Runs
  import opened LittleEndian
  import opened Wal
  import opened WalFile
  import opened Stores
  import opened EngineSteps
  import opened EngineInvariant
  import opened Memtables
  import opened Engines

  // ------------------------------------------------------------------- discovery

  ghost predicate Ascending(nums: seq<nat>) { forall i, j :: 0 <= i < j < |nums| ==> nums[i] < nums[j] }

  /** The live numbers among files, in order. */
  ghost predicate Lists(nums: seq<nat>, files: set<nat>, marker: nat) {
    Ascending(nums) && forall n :: n in nums <==> n in files && marker <= n
  }

  /** One place of an insertion sort. */
  method InsertNumber(nums: seq<nat>, n: nat) returns (r: seq<nat>)
    requires Ascending(nums) && n !in nums
    ensures Ascending(r) && forall k :: k in r <==> k in nums || k == n
  {
    hide Ascending;
    var i := |nums|;
    while i > 0 && nums[i - 1] > n
      invariant 0 <= i <= |nums| && forall j :: i <= j < |nums| ==> nums[j] > n
    {
      i := i - 1;
    }
    r := nums[..i] + [n] + nums[i..];
    InsertedThere(nums, n, i);
  }

  lemma InsertedThere(nums: seq<nat>, n: nat, i: nat)
    requires Ascending(nums) && i <= |nums| && (forall j :: i <= j < |nums| ==> nums[j] > n) && (i > 0 ==> nums[i - 1] < n)
    ensures var r := nums[..i] + [n] + nums[i..]; Ascending(r) && forall k :: k in r <==> k in nums || k == n
  {
    var r := nums[..i] + [n] + nums[i..];
    assert nums == nums[..i] + nums[i..];
    forall a, b | 0 <= a < b < |r|
      ensures r[a] < r[b]
    {
      if a < i - 1 { assert nums[a] < nums[i - 1]; }
    }
  }

  /** ReadDir's entries come in any order and are sorted; the number after the last is the next to use. */
  method Discover(files: set<nat>, marker: nat) returns (nums: seq<nat>, next: nat)
    ensures Lists(nums, files, marker) && IsNext(files, marker, next)
    ensures next == if nums == [] then 0 else nums[|nums| - 1] + 1
  {
    nums := [];
    var rest := files;
    while rest != {}
      invariant rest <= files && Ascending(nums) && forall n :: n in nums <==> n in files && n !in rest && marker <= n
      decreases |rest|
    {
      var n :| n in rest;
      rest := rest - {n};
      if marker <= n { nums := InsertNumber(nums, n); }
    }
    next := 0;
    if nums != [] {
      next := nums[|nums| - 1] + 1;
      assert nums[|nums| - 1] in nums;
    }
    forall k | k in files && marker <= k
      ensures k < next
    {
      assert k in nums;
    }
  }

  /** Where the first i of the numbers end. */
  function Past(nums: seq<nat>, marker: nat, i: nat): nat
    requires i <= |nums|
  {
    if i == 0 then marker else nums[i - 1] + 1
  }

  lemma PastGap(nums: seq<nat>, files: set<nat>, marker: nat, i: nat)
    requires Lists(nums, files, marker) && i < |nums|
    ensures marker <= Past(nums, marker, i) <= nums[i] && nums[i] in files
    ensures forall n :: Past(nums, marker, i) <= n < nums[i] ==> n !in files
  {
    assert nums[i] in nums;
    if i > 0 { assert nums[i - 1] in nums; }
    forall n | Past(nums, marker, i) <= n < nums[i]
      ensures n !in files
    {
      forall j | 0 <= j < |nums|
        ensures nums[j] != n
      {
        assert if j < i then nums[j] <= nums[i - 1] else nums[i] <= nums[j];
      }
    }
  }

  // ---------------------------------------------------------------------- tables

  lemma {:induction false} StackOldest(ts: seq<SSTable>, t: SSTable)
    ensures Stack(ts + [t]) == LayerOf(t.items) + Stack(ts)
  {
    hide LayerOf;
    if ts == [] {
      assert ts + [t] == [t];
      assert [t][1..] == [];
      assert Stack([t]) == Stack([]) + LayerOf(t.items);
    } else {
      assert (ts + [t])[1..] == ts[1..] + [t];
      StackOldest(ts[1..], t);
      CoverAssoc(LayerOf(t.items), Stack(ts[1..]), LayerOf(ts[0].items));
    }
  }

  lemma TablesFrom(tables: map<nat, TableFile>, nums: seq<nat>, marker: nat, i: nat, hi: nat)
    requires Lists(nums, tables.Keys, marker) && i < |nums| && nums[i] < hi && tables[nums[i]].Some?
    ensures Past(nums, marker, i) <= hi
    ensures Tables(tables, Past(nums, marker, i), hi) == LayerOf(tables[nums[i]].value) + Tables(tables, nums[i] + 1, hi)
  {
    hide LayerOf, Tables;
    PastGap(nums, tables.Keys, marker, i);
    var lo := Past(nums, marker, i);
    TablesSplit(tables, lo, nums[i] + 1, hi);
    TablesLast(tables, lo, nums[i]);
    assert forall n :: lo <= n < nums[i] ==> n !in tables by { assert forall n :: n in tables ==> n in tables.Keys; }
    TablesNone(tables, lo, nums[i]);
    assert map[] + LayerOf(tables[nums[i]].value) == LayerOf(tables[nums[i]].value);
  }

  /** discoverSSTables' second loop: newest first, giving up at the first table that does not open. */
  method LoadTables(tables: map<nat, TableFile>, nums: seq<nat>, marker: nat, next: nat) returns (ok: bool, ts: seq<SSTable>)
    requires Lists(nums, tables.Keys, marker) && next == (if nums == [] then 0 else nums[|nums| - 1] + 1)
    ensures ok <==> forall n :: n in tables && marker <= n ==> tables[n].Some?
    ensures ok ==> Stack(ts) == Tables(tables, marker, next) && forall k :: 0 <= k < |ts| ==> ts[k].number < next
  {
    hide LayerOf, Tables, Stack;
    ts := [];
    var i := |nums|;
    Emptied(tables, marker, Past(nums, marker, i));
    while i > 0
      invariant 0 <= i <= |nums| && (forall j :: i <= j < |nums| ==> nums[j] in tables && tables[nums[j]].Some?)
      invariant Stack(ts) == Tables(tables, Past(nums, marker, i), Past(nums, marker, |nums|))
      invariant forall k :: 0 <= k < |ts| ==> ts[k].number < next
      decreases i
    {
      assert nums[i - 1] in nums;
      if tables[nums[i - 1]].None? { return false, []; }
      var t := SSTable(nums[i - 1], tables[nums[i - 1]].value);
      TablesFrom(tables, nums, marker, i - 1, Past(nums, marker, |nums|));
      StackOldest(ts, t);
      ts, i := ts + [t], i - 1;
    }
    ok := true;
    forall n | n in tables && marker <= n
      ensures tables[n].Some?
    {
      assert n in tables.Keys;
      assert n in nums;
    }
    if nums == [] { Emptied(tables, marker, 0); }
  }

  lemma Emptied(tables: map<nat, TableFile>, lo: nat, hi: nat)
    ensures Stack([]) == Tables(tables, hi, hi) && (hi <= lo ==> Tables(tables, lo, hi) == map[] == Stack([]))
  {
  }

  // ------------------------------------------------------------------ log files

  /** Whatever a log file holds can be logged again. */
  lemma {:induction false} RecordsFit(crc: Checksum, b: Bytes)
    ensures AllFit(Records(crc, b))
    decreases |b|
  {
    hide Get, Pow256;
    if DecodeOne(crc, b).Some? {
      var p := b[HeaderSize..HeaderSize + Get(b[4..8])];
      Powers();
      GetBound(b[4..8]);
      GetBound(p[1..9]);
      RecordsFit(crc, b[DecodeOne(crc, b).value.1..]);
    }
  }

  lemma LogsUpTo(crc: Checksum, wals: map<nat, Bytes>, nums: seq<nat>, marker: nat, i: nat)
    requires Lists(nums, wals.Keys, marker) && i < |nums|
    ensures nums[i] in wals
    ensures Logs(crc, wals, marker, Past(nums, marker, i + 1)) == Logs(crc, wals, marker, Past(nums, marker, i)) + LogLayer(crc, wals[nums[i]])
  {
    hide LogLayer, Logs;
    PastGap(nums, wals.Keys, marker, i);
    var lo := Past(nums, marker, i);
    LogsLast(crc, wals, marker, nums[i]);
    LogsSplit(crc, wals, marker, lo, nums[i]);
    assert forall n :: lo <= n < nums[i] ==> n !in wals by { assert forall n :: n in wals ==> n in wals.Keys; }
    LogsNone(crc, wals, lo, nums[i]);
    assert Logs(crc, wals, marker, lo) + map[] == Logs(crc, wals, marker, lo);
  }

  /** Only the first i files may have been cut. */
  ghost predicate Untouched(now: map<nat, Bytes>, wals: map<nat, Bytes>, nums: seq<nat>, i: nat) {
    i <= |nums| && now.Keys == wals.Keys && forall n :: n in wals && n !in nums[..i] ==> now[n] == wals[n]
  }

  lemma NoneTouched(wals: map<nat, Bytes>, nums: seq<nat>)
    ensures Untouched(wals, wals, nums, 0)
  {
  }

  lemma UntouchedNext(now: map<nat, Bytes>, wals: map<nat, Bytes>, nums: seq<nat>, marker: nat, i: nat, b: Bytes)
    requires Untouched(now, wals, nums, i) && i < |nums| && Lists(nums, wals.Keys, marker)
    ensures nums[i] in now && nums[i] in wals && now[nums[i]] == wals[nums[i]]
    ensures Untouched(now[nums[i] := b], wals, nums, i + 1)
  {
    assert nums[i] in nums;
    assert nums[i] in wals.Keys && nums[i] in now.Keys;
    assert nums[..i + 1] == nums[..i] + [nums[i]];
    assert now[nums[i] := b].Keys == now.Keys + {nums[i]} == wals.Keys;
  }

  /** No record of the log file has a number above m. */
  ghost predicate SeqsWithin(crc: Checksum, b: Bytes, m: nat) { forall i :: 0 <= i < |Records(crc, b)| ==> Records(crc, b)[i].seqNum <= m }

  /** Nor has one of any of the files listed before the i-th. */
  ghost predicate NumsWithin(crc: Checksum, wals: map<nat, Bytes>, nums: seq<nat>, i: nat, m: nat)
    requires i <= |nums|
  {
    forall k :: 0 <= k < i && nums[k] in wals ==> SeqsWithin(crc, wals[nums[k]], m)
  }

  ghost predicate LiveWithin(crc: Checksum, wals: map<nat, Bytes>, marker: nat, m: nat) {
    forall n :: n in wals && marker <= n ==> SeqsWithin(crc, wals[n], m)
  }

  /** The number is that of a record of a live log file. */
  ghost predicate LiveUses(crc: Checksum, wals: map<nat, Bytes>, marker: nat, m: nat) {
    exists n :: n in wals && marker <= n && SeqUsed(crc, wals[n], m)
  }

  ghost predicate SeqUsed(crc: Checksum, b: Bytes, m: nat) { exists i :: 0 <= i < |Records(crc, b)| && Records(crc, b)[i].seqNum == m }

  ghost predicate TableUses(ts: seq<SSTable>, m: nat) {
    exists i, j :: 0 <= i < |ts| && 0 <= j < |ts[i].items| && ts[i].items[j].seqNum == m
  }

  lemma OneUsed(crc: Checksum, wals: map<nat, Bytes>, marker: nat, nums: seq<nat>, i: nat, m: nat, k: nat)
    requires Lists(nums, wals.Keys, marker) && i < |nums| && (m == 0 || LiveUses(crc, wals, marker, m))
    requires nums[i] in wals && (k == m || SeqUsed(crc, wals[nums[i]], k))
    ensures k == 0 || LiveUses(crc, wals, marker, k)
  {
    hide SeqUsed;
    assert nums[i] in nums;
  }

  lemma OneMoreWithin(crc: Checksum, wals: map<nat, Bytes>, nums: seq<nat>, i: nat, m: nat, k: nat)
    requires i < |nums| && nums[i] in wals && NumsWithin(crc, wals, nums, i, m) && m <= k && SeqsWithin(crc, wals[nums[i]], k)
    ensures NumsWithin(crc, wals, nums, i + 1, k)
  {
    hide Records;
  }

  /** The first i log files are in the memtable, cut where their records end. */
  ghost predicate Replayed(crc: Checksum, wals: map<nat, Bytes>, marker: nat, nums: seq<nat>, i: nat, items: seq<Item>, cut: map<nat, Bytes>, m: nat) {
    && i <= |nums| && Loggable(items) && LayerOf(items) == Logs(crc, wals, marker, Past(nums, marker, i))
    && Untouched(cut, wals, nums, i) && NumsWithin(crc, wals, nums, i, m)
    && (m == 0 || LiveUses(crc, wals, marker, m))
  }

  lemma NoneReplayed(crc: Checksum, wals: map<nat, Bytes>, marker: nat, nums: seq<nat>)
    ensures Replayed(crc, wals, marker, nums, 0, [], wals, 0)
  {
    hide LayerOf, Logs;
    NothingLogged(crc, wals, nums, marker);
    NoneTouched(wals, nums);
  }

  lemma ReplayedAll(crc: Checksum, wals: map<nat, Bytes>, marker: nat, nums: seq<nat>, items: seq<Item>, cut: map<nat, Bytes>, m: nat)
    requires Lists(nums, wals.Keys, marker) && Replayed(crc, wals, marker, nums, |nums|, items, cut, m)
    ensures Loggable(items) && LayerOf(items) == Logs(crc, wals, marker, Past(nums, marker, |nums|)) && Untouched(cut, wals, nums, |nums|)
    ensures LiveWithin(crc, wals, marker, m) && (m == 0 || LiveUses(crc, wals, marker, m))
  {
    hide LayerOf, Logs, Loggable, Untouched, Lists, Past, LiveWithin, NumsWithin, LiveUses;
    AllWithin(crc, wals, nums, marker, m);
  }

  lemma AllWithin(crc: Checksum, wals: map<nat, Bytes>, nums: seq<nat>, marker: nat, m: nat)
    requires Lists(nums, wals.Keys, marker) && NumsWithin(crc, wals, nums, |nums|, m)
    ensures LiveWithin(crc, wals, marker, m)
  {
    hide SeqsWithin;
    forall n | n in wals && marker <= n
      ensures SeqsWithin(crc, wals[n], m)
    {
      var k :| 0 <= k < |nums| && nums[k] == n;
    }
  }

  lemma WithinMore(crc: Checksum, wals: map<nat, Bytes>, marker: nat, m: nat, k: nat)
    requires LiveWithin(crc, wals, marker, m) && m <= k
    ensures LiveWithin(crc, wals, marker, k)
  {
    hide Records;
  }

  /** Open's replay loop: every live log file, oldest first, each cut where its records end. */
  method ReplayLogs(crc: Checksum, wals: map<nat, Bytes>, marker: nat, nums: seq<nat>, mem: Memtable, levels: Levels)
    returns (cut: map<nat, Bytes>, maxSeq: nat)
    requires Lists(nums, wals.Keys, marker) && mem.Valid() && mem.contents == []
    modifies mem.repr
    ensures mem.Valid() && Loggable(mem.contents) && fresh(mem.repr - old(mem.repr))
    ensures LayerOf(mem.contents) == Logs(crc, wals, marker, Past(nums, marker, |nums|)) && Untouched(cut, wals, nums, |nums|)
    ensures LiveWithin(crc, wals, marker, maxSeq) && (maxSeq == 0 || LiveUses(crc, wals, marker, maxSeq))
  {
    hide LayerOf, Logs, Loggable, Memtable.Valid, LogLayer, Untouched, Lists, ValidLen, Records, Past, LiveWithin, LiveUses, Replayed;
    cut, maxSeq := wals, 0;
    NoneReplayed(crc, wals, marker, nums);
    for i := 0 to |nums|
      invariant mem.Valid() && fresh(mem.repr - old(mem.repr)) && Replayed(crc, wals, marker, nums, i, mem.contents, cut, maxSeq)
    {
      cut, maxSeq := ReplayNext(crc, wals, marker, nums, i, cut, mem, levels, maxSeq);
    }
    ReplayedAll(crc, wals, marker, nums, mem.contents, cut, maxSeq);
  }

  /** The next log file. */
  method ReplayNext(crc: Checksum, wals: map<nat, Bytes>, marker: nat, nums: seq<nat>, i: nat, was: map<nat, Bytes>, mem: Memtable, levels: Levels, soFar: nat)
    returns (cut: map<nat, Bytes>, maxSeq: nat)
    requires Lists(nums, wals.Keys, marker) && i < |nums| && mem.Valid() && Replayed(crc, wals, marker, nums, i, mem.contents, was, soFar)
    modifies mem.repr
    ensures mem.Valid() && fresh(mem.repr - old(mem.repr)) && Replayed(crc, wals, marker, nums, i + 1, mem.contents, cut, maxSeq)
  {
    hide LayerOf, Logs, Loggable, Memtable.Valid, LogLayer, Untouched, Lists, ValidLen, Records, Past, SeqsWithin, NumsWithin, LiveUses, SeqUsed;
    LogsUpTo(crc, wals, nums, marker, i);
    ghost var w := wals[nums[i]];
    UntouchedNext(was, wals, nums, marker, i, w[..ValidLen(crc, w)]);
    var b;
    b, maxSeq := ReplayInto(crc, was[nums[i]], mem, levels, soFar);
    OneMoreWithin(crc, wals, nums, i, soFar, maxSeq);
    OneUsed(crc, wals, marker, nums, i, soFar, maxSeq);
    cut := was[nums[i] := b];
  }

  /** One log file, replayed into the memtable. */
  method ReplayInto(crc: Checksum, bytes: Bytes, mem: Memtable, levels: Levels, soFar: nat) returns (b: Bytes, maxSeq: nat)
    requires mem.Valid() && Loggable(mem.contents)
    modifies mem.repr
    ensures mem.Valid() && Loggable(mem.contents) && fresh(mem.repr - old(mem.repr))
    ensures LayerOf(mem.contents) == LayerOf(old(mem.contents)) + LogLayer(crc, bytes) && b == bytes[..ValidLen(crc, bytes)]
    ensures maxSeq >= soFar && SeqsWithin(crc, bytes, maxSeq) && (maxSeq == soFar || SeqUsed(crc, bytes, maxSeq))
  {
    hide LayerOf, Loggable, Memtable.Valid, Records, ValidLen, AllFit, OpsOf, Written;
    RecordsFit(crc, bytes);
    var log := new Log(bytes);
    var recs, torn, cut := log.Replay(crc);
    b := log.bytes;
    WriteAll(mem, recs, levels);
    maxSeq := MaxSeqOf(recs, soFar);
  }

  method MaxSeqOf(recs: seq<Record>, from: nat) returns (m: nat)
    ensures m >= from && (forall i :: 0 <= i < |recs| ==> recs[i].seqNum <= m) && (m == from || exists i :: 0 <= i < |recs| && recs[i].seqNum == m)
  {
    m := from;
    for i := 0 to |recs|
      invariant m >= from && (forall j :: 0 <= j < i ==> recs[j].seqNum <= m) && (m == from || exists j :: 0 <= j < i && recs[j].seqNum == m)
    {
      if recs[i].seqNum > m { m := recs[i].seqNum; }
    }
  }

  lemma NothingLogged(crc: Checksum, wals: map<nat, Bytes>, nums: seq<nat>, marker: nat)
    ensures LayerOf([]) == Logs(crc, wals, marker, Past(nums, marker, 0)) && Loggable([])
  {
  }

  // -------------------------------------------------------------------- relogging

  /** The recovered memtable's records, in key order. */
  method RelogRecords(items: seq<Item>) returns (recs: seq<Record>)
    requires Sorted(items) && Loggable(items)
    ensures Relogs(recs, LayerOf(items))
  {
    hide LayerOf, Loggable, Sorted;
    recs := [];
    for i := 0 to |items|
      invariant |recs| == i && forall j :: 0 <= j < i ==> recs[j] == RecordOf(items[j])
    {
      recs := recs + [RecordOf(items[i])];
    }
    RelogItems(items, recs);
  }

  lemma RelogItems(items: seq<Item>, recs: seq<Record>)
    requires Sorted(items) && Loggable(items) && |recs| == |items| && forall j :: 0 <= j < |items| ==> recs[j] == RecordOf(items[j])
    ensures Relogs(recs, LayerOf(items))
  {
    hide Find, Written;
    forall i | 0 <= i < |recs|
      ensures Fits(recs[i])
    {
      FindAt(items, i);
    }
    assert OpsOf(recs) == ItemOps(items);
    forall i, j | 0 <= i < j < |recs|
      ensures recs[i].key != recs[j].key
    {
      LessAsym(items[i].key, items[j].key);
    }
  }

  /** What Open writes to the fresh log file before the old ones are removed. */
  method Relog(crc: Checksum, mem: Memtable) returns (b: Bytes, ghost recs: seq<Record>)
    requires mem.Valid() && Loggable(mem.contents)
    ensures Relogs(recs, LayerOf(mem.contents)) && b == EncodeAll(crc, recs)
    ensures LogLayer(crc, b) == LayerOf(mem.contents) && ValidLen(crc, b) == |b|
  {
    hide LayerOf, Loggable, Memtable.Valid, Relogs, EncodeAll, LogLayer, ValidLen;
    var items := mem.Scan();
    var log := new Log([]);
    var rs := RelogRecords(items);
    recs := rs;
    var ok := log.AppendBatch(crc, rs);
    assert [] + EncodeAll(crc, recs) == EncodeAll(crc, recs);
    b := log.bytes;
    RelogWhole(crc, recs, LayerOf(items));
  }

  ghost function SetOf(nums: seq<nat>): set<nat> { set n | n in nums }

  lemma SetOfNext(nums: seq<nat>, i: nat)
    requires i < |nums|
    ensures SetOf(nums[..i + 1]) == SetOf(nums[..i]) + {nums[i]}
  {
    assert nums[..i + 1] == nums[..i] + [nums[i]];
  }

  /** The old log files go one by one. */
  method RemoveLogs(wals: map<nat, Bytes>, nums: seq<nat>) returns (rest: map<nat, Bytes>)
    ensures rest == wals - SetOf(nums)
  {
    hide SetOf;
    rest := wals;
    assert SetOf(nums[..0]) == {} by { assert nums[..0] == []; SetOfNone(); }
    for i := 0 to |nums|
      invariant rest == wals - SetOf(nums[..i])
    {
      SetOfNext(nums, i);
      rest := rest - {nums[i]};
    }
    assert nums[..|nums|] == nums;
  }

  lemma SetOfNone()
    ensures SetOf([]) == {}
  {
  }

  // --------------------------------------------------------------------- opening

  lemma AllOpen(d: Disk)
    ensures Openable(d) <==> forall n :: n in d.tables && d.marker <= n ==> d.tables[n].Some?
  {
  }

  lemma NextAbove(crc: Checksum, s: State, next: nat, nextFlush: nat)
    requires Good(crc, s) && IsNext(s.disk.wals.Keys, s.disk.marker, next) && IsNext(s.disk.tables.Keys, s.disk.marker, nextFlush)
    ensures s.disk.marker <= next && next !in s.disk.wals
  {
    hide IsNext, Recovers, UpFiles, UpHolds, Clean;
    NextLive(s.disk, next, nextFlush);
  }

  lemma PastLast(crc: Checksum, d: Disk, logs: seq<nat>, next: nat)
    requires next == (if logs == [] then 0 else logs[|logs| - 1] + 1)
    ensures Logs(crc, d.wals, d.marker, Past(logs, d.marker, |logs|)) == Logs(crc, d.wals, d.marker, next)
  {
  }

  lemma AllRemoved(d: Disk, replayed: map<nat, Bytes>, logs: seq<nat>, next: nat, b: Bytes)
    requires Untouched(replayed, d.wals, logs, |logs|) && Lists(logs, d.wals.Keys, d.marker) && next !in d.wals
    ensures replayed[next := b] - SetOf(logs) == (d.wals - LiveWals(d))[next := b]
  {
    assert logs[..|logs|] == logs;
    assert forall n :: n in d.wals <==> n in d.wals.Keys;
    assert forall n :: n in replayed <==> n in replayed.Keys;
    assert SetOf(logs) == LiveWals(d);
    assert next !in logs;
  }

  lemma OpenStep(crc: Checksum, s: State, wal: nat, flush: nat, recs: seq<Record>)
    requires Good(crc, s) && s.up.None? && Openable(s.disk)
    requires IsNext(s.disk.wals.Keys, s.disk.marker, wal) && IsNext(s.disk.tables.Keys, s.disk.marker, flush)
    requires Relogs(recs, Logs(crc, s.disk.wals, s.disk.marker, wal))
    ensures var d := s.disk;
            var t := State(Disk((d.wals - LiveWals(d))[wal := EncodeAll(crc, recs)], d.tables, d.marker),
                           Some(Running(Logs(crc, d.wals, d.marker, wal), wal, Idle, Tables(d.tables, d.marker, flush), flush, wal + 1)), s.hist);
            Enabled(crc, s, Open(wal, flush, recs)) && t == After(crc, s, Open(wal, flush, recs)) && Good(crc, t) && View(t.up.value) == Written(s.hist)
  {
    hide Good, Openable, IsNext, Relogs, View, LiveWals;
    OpenGood(crc, s, wal, flush, recs);
  }

  method MaxSeqTables(ts: seq<SSTable>, from: nat) returns (m: nat)
    ensures m >= from && (forall i, j :: 0 <= i < |ts| && 0 <= j < |ts[i].items| ==> ts[i].items[j].seqNum <= m) && (m == from || TableUses(ts, m))
  {
    m := from;
    for i := 0 to |ts|
      invariant m >= from && (forall k, j :: 0 <= k < i && 0 <= j < |ts[k].items| ==> ts[k].items[j].seqNum <= m) && (m == from || TableUses(ts, m))
    {
      for j := 0 to |ts[i].items|
        invariant m >= from && (forall k, j :: 0 <= k < i && 0 <= j < |ts[k].items| ==> ts[k].items[j].seqNum <= m) && (m == from || TableUses(ts, m))
        invariant forall k :: 0 <= k < j ==> ts[i].items[k].seqNum <= m
      {
        if ts[i].items[j].seqNum > m { m := ts[i].items[j].seqNum; }
      }
    }
  }

  /** The live log files become one memtable and one fresh log file, with the old ones removed last. */
  method Recover(crc: Checksum, dir: Dir, logs: seq<nat>, next: nat, levels: Levels) returns (mem: Memtable, maxSeq: nat, ghost recs: seq<Record>)
    requires Lists(logs, dir.wals.Keys, dir.marker) && next == (if logs == [] then 0 else logs[|logs| - 1] + 1) && next !in dir.wals
    modifies dir`wals
    ensures fresh(mem) && fresh(mem.repr) && mem.Valid() && LayerOf(mem.contents) == Logs(crc, old(dir.wals), dir.marker, next)
    ensures Relogs(recs, LayerOf(mem.contents))
    ensures dir.wals == (old(dir.wals) - LiveWals(old(dir.Files())))[next := EncodeAll(crc, recs)]
    ensures LiveWithin(crc, old(dir.wals), dir.marker, maxSeq) && (maxSeq == 0 || LiveUses(crc, old(dir.wals), dir.marker, maxSeq))
  {
    hide LiveWithin, LiveUses, LayerOf, Logs, Loggable, Memtable.Valid, Lists, LiveWals, Untouched, SetOf, EncodeAll, Relogs, LogLayer, ValidLen;
    ghost var d := dir.Files();
    mem := new Memtable();
    var cut;
    cut, maxSeq := ReplayLogs(crc, dir.wals, dir.marker, logs, mem, levels);
    dir.wals := cut;
    PastLast(crc, d, logs, next);
    var log;
    log, recs := Relog(crc, mem);
    dir.wals := dir.wals[next := log];
    AllRemoved(d, cut, logs, next, log);
    var rest := RemoveLogs(dir.wals, logs);
    dir.wals := rest;
  }

  /** The engine over what was recovered. */
  method Assemble(crc: Checksum, dir: Dir, threshold: nat, mem: Memtable, ts: seq<SSTable>, next: nat, nextSeq: nat, nextFlush: nat,
                  ghost s: State, ghost recs: seq<Record>) returns (e: Engine)
    requires Good(crc, s) && s.up.None? && Openable(s.disk)
    requires IsNext(s.disk.wals.Keys, s.disk.marker, next) && IsNext(s.disk.tables.Keys, s.disk.marker, nextFlush)
    requires mem.Valid() && dir !in mem.repr && Relogs(recs, LayerOf(mem.contents))
    requires LayerOf(mem.contents) == Logs(crc, s.disk.wals, s.disk.marker, next) && Stack(ts) == Tables(s.disk.tables, s.disk.marker, nextFlush)
    requires forall i :: 0 <= i < |ts| ==> ts[i].number < nextFlush
    requires dir.Files() == Disk((s.disk.wals - LiveWals(s.disk))[next := EncodeAll(crc, recs)], s.disk.tables, s.disk.marker)
    ensures fresh(e) && e.dir == dir && e.crc == crc && e.mem == mem && e.immutable == null && !e.flushErr && e.hist == s.hist
    ensures e.sstables == ts && e.nextSeq == nextSeq && e.threshold == threshold && e.Valid() && View(e.Now()) == Written(s.hist) && e.Lone()
  {
    hide LayerOf, Logs, Tables, Memtable.Valid, Good, Openable, IsNext, Written, Stack, LiveWals, EncodeAll, Relogs, Enabled, After, View;
    e := new Engine(crc, dir, threshold, mem, ts, next, nextSeq, nextFlush, next + 1, s.hist);
    OpenStep(crc, s, next, nextFlush, recs);
    OnlyNext(s.disk, dir.wals, next, EncodeAll(crc, recs));
  }

  lemma OnlyNext(d: Disk, wals: map<nat, Bytes>, next: nat, b: Bytes)
    requires wals == (d.wals - LiveWals(d))[next := b]
    ensures forall n :: n in wals && d.marker <= n ==> n == next
  {
    forall n | n in wals && d.marker <= n ensures n == next { assert n in d.wals ==> n in LiveWals(d); }
  }

  /** Open, once the tables are loaded. */
  method Resume(crc: Checksum, dir: Dir, threshold: nat, ts: seq<SSTable>, nextFlush: nat, levels: Levels, ghost hist: seq<Op>) returns (e: Engine)
    requires Good(crc, State(dir.Files(), None, hist)) && Openable(dir.Files()) && IsNext(dir.tables.Keys, dir.marker, nextFlush)
    requires Stack(ts) == Tables(dir.tables, dir.marker, nextFlush) && forall i :: 0 <= i < |ts| ==> ts[i].number < nextFlush
    modifies dir`wals
    ensures fresh(e) && e.dir == dir && e.crc == crc && fresh(e.mem.repr) && e.immutable == null && !e.flushErr && e.hist == hist
    ensures e.sstables == ts && e.threshold == threshold && e.Valid() && View(e.Now()) == Written(hist) && e.Lone()
    ensures forall i, j :: 0 <= i < |ts| && 0 <= j < |ts[i].items| ==> ts[i].items[j].seqNum < e.nextSeq
    ensures e.nextSeq > 0 && LiveWithin(crc, old(dir.wals), dir.marker, e.nextSeq - 1)
    ensures e.nextSeq == 1 || LiveUses(crc, old(dir.wals), dir.marker, e.nextSeq - 1) || TableUses(ts, e.nextSeq - 1)
  {
    hide LayerOf, Logs, Tables, Memtable.Valid, Good, Lists, Openable, IsNext, Written, Stack, LiveWals, EncodeAll, Relogs, View, LiveWithin, LiveUses, TableUses, Engine.Valid;
    ghost var d, s := dir.Files(), State(dir.Files(), None, hist);
    var logs, next := Discover(dir.wals.Keys, dir.marker);
    NextAbove(crc, s, next, nextFlush);
    var mem, maxSeq;
    ghost var recs;
    mem, maxSeq, recs := Recover(crc, dir, logs, next, levels);
    ghost var logged := maxSeq;
    maxSeq := MaxSeqTables(ts, maxSeq);
    WithinMore(crc, d.wals, d.marker, logged, maxSeq);
    e := Assemble(crc, dir, threshold, mem, ts, next, maxSeq + 1, nextFlush, s, recs);
  }

  /**
   * Open.  It refuses a store with a live half-written table and leaves it as it
   * was; any other store comes back holding exactly what it should, with the next
   * sequence number one above the largest in its tables and log files.
   */
  method OpenEngine(crc: Checksum, dir: Dir, threshold: nat, levels: Levels, ghost hist: seq<Op>) returns (e: Engine?)
    requires Good(crc, State(dir.Files(), None, hist))
    modifies dir
    ensures e == null <==> !Openable(old(dir.Files()))
    ensures e == null ==> dir.Files() == old(dir.Files())
    ensures e != null ==>
      && fresh(e) && e.dir == dir && e.crc == crc && e.threshold == threshold && e.Valid() && fresh(e.mem.repr) && e.immutable == null && !e.flushErr && e.hist == hist
      && View(e.Now()) == Written(hist)
      && (forall i, j :: 0 <= i < |e.sstables| && 0 <= j < |e.sstables[i].items| ==> e.sstables[i].items[j].seqNum < e.nextSeq)
      && e.nextSeq > 0 && LiveWithin(crc, old(dir.wals), dir.marker, e.nextSeq - 1) && e.Lone()
      && (e.nextSeq == 1 || LiveUses(crc, old(dir.wals), dir.marker, e.nextSeq - 1) || TableUses(e.sstables, e.nextSeq - 1))
  {
    hide LayerOf, Logs, Tables, Memtable.Valid, Good, Lists, Openable, IsNext, Written, Stack, View, LiveWithin, LiveUses, TableUses, Engine.Valid, Engine.Lone;
    ghost var d := dir.Files();
    var nums, nextFlush := Discover(dir.tables.Keys, dir.marker);
    var ok, ts := LoadTables(dir.tables, nums, dir.marker, nextFlush);
    assert ok <==> Openable(d) by { AllOpen(d); }
    if !ok { return null; }
    e := Resume(crc, dir, threshold, ts, nextFlush, levels, hist);
  }
}
