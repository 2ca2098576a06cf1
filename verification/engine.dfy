/**
 * The engine of engine/engine.go over its memtables, log files and tables.  Each
 * method is one step of `EngineSteps`, or a run of them; taking the lock and
 * waiting for a flush to finish are what makes a step's guard true.
 */
module Engines {
  import opened Bytes
  import opened RaftTypes
  import opened Runs
  import opened Wal
  import opened WalFile
  import opened Stores
  import opened EngineSteps
  import opened EngineInvariant
  import opened SkipLists
  import opened Memtables

  /** The files of a store. */
  class Dir {
    var wals: map<nat, Bytes>
    var tables: map<nat, TableFile>
    var marker: nat

    ghost function Files(): Disk
      reads this
    {
      Disk(wals, tables, marker)
    }

    /** wal.Open: a file that is not there yet is created empty. */
    method OpenLog(n: nat)
      modifies this`wals
      ensures wals == old(wals)[n := if n in old(wals) then old(wals[n]) else []]
    {
      if n !in wals { wals := wals[n := []]; }
    }
  }

  /** An open table: its reader answers from its entries. */
  datatype SSTable = SSTable(number: nat, items: seq<Item>)

  /** Tables from newest to oldest, the newest covering the others. */
  function Stack(ts: seq<SSTable>): Layer {
    if ts == [] then map[] else Stack(ts[1..]) + LayerOf(ts[0].items)
  }

  function EntryOfItem(it: Item): Option<Bytes> { if it.deleted then None else Some(it.value) }

  function RecordFor(op: Op, seqNum: nat): Record {
    Record(seqNum, if op.deleted then RecordDelete else RecordPut, op.key, op.value)
  }

  /** A batch's records, numbered from n. */
  function RecordsFor(ops: seq<Op>, n: nat): (recs: seq<Record>)
    ensures |recs| == |ops| && forall i :: 0 <= i < |ops| ==> recs[i] == RecordFor(ops[i], n + i)
  {
    if ops == [] then [] else RecordsFor(ops[..|ops| - 1], n) + [RecordFor(ops[|ops| - 1], n + |ops| - 1)]
  }

  /** A memtable entry's record. */
  function RecordOf(it: Item): Record {
    Record(it.seqNum, if it.deleted then RecordDelete else RecordPut, it.key, it.value)
  }

  // ------------------------------------------------------------------------- lemmas

  lemma BatchOps(ops: seq<Op>, n: nat)
    ensures OpsOf(RecordsFor(ops, n)) == ops
  {
  }

  /** What a run's layer holds for a key is what a search finds. */
  lemma {:induction false} FindLayer(items: seq<Item>, key: Bytes)
    ensures key in LayerOf(items) <==> Find(items, key).Some?
    ensures Find(items, key).Some? ==> LayerOf(items)[key] == EntryOfItem(Find(items, key).value)
    decreases |items|
  {
    if items != [] {
      var n := |items| - 1;
      FindLayer(items[..n], key);
      assert ItemOps(items)[..n] == ItemOps(items[..n]);
    }
  }

  /** A write to a memtable is a write to its layer. */
  lemma LayerWrite(before: seq<Item>, after: seq<Item>, it: Item)
    requires forall key :: Find(after, key) == if key == it.key then Some(it) else Find(before, key)
    ensures LayerOf(after) == LayerOf(before)[it.key := EntryOfItem(it)]
  {
    hide LayerOf, Find;
    var l := LayerOf(before)[it.key := EntryOfItem(it)];
    forall key: Bytes
      ensures key in LayerOf(after) <==> key in l
      ensures key in l ==> LayerOf(after)[key] == l[key]
    {
      FindLayer(before, key);
      FindLayer(after, key);
    }
  }

  lemma WrittenOne(ops: seq<Op>, i: nat)
    requires i < |ops|
    ensures Written(ops[..i + 1]) == Written(ops[..i])[ops[i].key := EntryOf(ops[i])]
  {
    assert ops[..i + 1][..i] == ops[..i];
  }

  lemma SomeWritten(l: Layer, ops: seq<Op>)
    requires ops != []
    ensures l + Written(ops) != map[]
  {
    hide Written;
    WrittenKeys(ops, ops[0].key);
    assert ops[0].key in l + Written(ops);
  }

  class Engine {
    const crc: Checksum
    const dir: Dir
    const threshold: nat
    var mem: Memtable
    var immutable: Memtable?
    var wal: nat
    var frozenWal: nat
    var flushSeq: nat
    var sstables: seq<SSTable>
    var nextSeq: nat
    var nextFlushSeq: nat
    var nextWALSeq: nat
    var flushErr: bool
    /** What the store should hold, and what a failed flush left in its log file only. */
    ghost var hist: seq<Op>
    ghost var lost: Layer

    ghost function Flush(): Flush
      reads this, immutable
    {
      if immutable != null then Busy(LayerOf(immutable.contents), frozenWal, flushSeq, false)
      else if flushErr then Busy(lost, frozenWal, flushSeq, true)
      else Idle
    }

    ghost function Now(): Running
      reads this, mem, immutable
    {
      Running(LayerOf(mem.contents), wal, Flush(), Stack(sstables), nextFlushSeq, nextWALSeq)
    }

    ghost function Abs(): State
      reads this, dir, mem, immutable
    {
      State(dir.Files(), Some(Now()), hist)
    }

    ghost predicate Valid()
      reads this, dir, mem, mem.repr, immutable, if immutable == null then {} else immutable.repr
    {
      && mem.Valid() && {this, dir} !! mem.repr
      && (immutable != null ==> !flushErr && immutable.Valid() && immutable.repr !! mem.repr + {this, dir})
      && (forall i :: 0 <= i < |sstables| ==> sstables[i].number < nextFlushSeq)
      && Good(crc, Abs())
    }

    /** No live log file is older than the ones in use. */
    ghost predicate Lone()
      reads this, dir
    {
      forall n :: n in dir.wals && dir.marker <= n ==> (if immutable != null then frozenWal else wal) <= n
    }

    /** The engine that Open returns. */
    constructor (crc: Checksum, dir: Dir, threshold: nat, mem: Memtable, sstables: seq<SSTable>,
                 wal: nat, nextSeq: nat, nextFlushSeq: nat, nextWALSeq: nat, ghost hist: seq<Op>)
      ensures this.crc == crc && this.dir == dir && this.threshold == threshold && this.mem == mem && immutable == null && !flushErr
      ensures this.wal == wal && this.nextSeq == nextSeq && this.sstables == sstables && this.hist == hist
      ensures this.nextFlushSeq == nextFlushSeq && this.nextWALSeq == nextWALSeq
    {
      this.crc, this.dir, this.threshold, this.mem, this.sstables := crc, dir, threshold, mem, sstables;
      immutable, flushErr, frozenWal, flushSeq := null, false, 0, 0;
      this.wal, this.nextSeq, this.nextFlushSeq, this.nextWALSeq, this.hist, lost := wal, nextSeq, nextFlushSeq, nextWALSeq, hist, map[];
    }

    /** Get: the newest layer that knows the key decides; a tombstone is an answer. */
    method Get(key: Bytes) returns (r: Option<Bytes>)
      requires Valid()
      ensures r == Answer(View(Now()), key)
      ensures !flushErr ==> r == Answer(Written(hist), key)
    {
      hide LayerOf, Find, Good, Written, Stack, Memtable.Valid, View;
      if !flushErr { OpenView(crc, Abs()); }
      var known := GetFromMemory(key);
      if known.Some? { return known.value; }
      r := SearchTables(sstables, key);
    }

    /** The memtables' part of Get: their answer, or None if it is the tables' turn. */
    method GetFromMemory(key: Bytes) returns (r: Option<Option<Bytes>>)
      requires Valid()
      ensures Answer(View(Now()), key) == if r.Some? then r.value else Answer(Stack(sstables), key)
    {
      hide LayerOf, Find, Good, Stack, Memtable.Valid;
      assert immutable != null ==> immutable.Valid();
      var own := mem.Get(key);
      FindLayer(mem.contents, key);
      if own.Some? { return Some(EntryOfItem(own.value)); }
      if immutable != null {
        var frozen := immutable.Get(key);
        FindLayer(immutable.contents, key);
        if frozen.Some? { return Some(EntryOfItem(frozen.value)); }
      }
      return None;
    }

    /** The records of a batch, appended to the active log file. */
    method AppendLog(recs: seq<Record>)
      requires wal in dir.wals
      modifies dir`wals
      ensures dir.wals == old(dir.wals)[wal := old(dir.wals[wal]) + EncodeAll(crc, recs)]
    {
      var log := new Log(dir.wals[wal]);
      var ok := log.AppendBatch(crc, recs);
      dir.wals := dir.wals[wal := log.bytes];
    }

    /** ApplyBatch, once no flush is under way: false once a flush has failed. */
    method ApplyBatch(ops: seq<Op>, levels: Levels) returns (ok: bool)
      requires Valid() && immutable == null && AllFit(RecordsFor(ops, nextSeq))
      modifies this, dir, mem.repr
      ensures Valid() && ok == !old(flushErr) && flushErr == old(flushErr) && hist == if ok then old(hist) + ops else old(hist)
      ensures fresh(mem.repr - old(mem.repr)) && (immutable != null ==> fresh(immutable.repr - old(mem.repr)))
      ensures !ok || ops == [] ==> Abs() == old(Abs()) && nextSeq == old(nextSeq)
      ensures ok && ops != [] ==>
        && nextSeq == old(nextSeq) + |ops| && Possible(crc, old(Abs()), Batch(RecordsFor(ops, old(nextSeq))))
        && var s := After(crc, old(Abs()), Batch(RecordsFor(ops, old(nextSeq))));
           if immutable == null then Abs() == s && mem.approxSize < threshold
           else Possible(crc, s, Freeze) && Abs() == After(crc, s, Freeze) && immutable.approxSize >= threshold
      ensures old(Lone()) ==> Lone()
    {
      hide LayerOf, Find, Written, Stack, Memtable.Valid, EncodeAll, Possible, After, Good, Engine.Valid, Engine.Abs, Engine.Lone, RecordsFor, AllFit;
      if flushErr { return false; }
      if ops == [] { return true; }
      WriteBatch(ops, levels);
      if mem.approxSize >= threshold { StartFlush(); }
      return true;
    }

    /** The log file first, then the memtable. */
    method Store(recs: seq<Record>, levels: Levels)
      requires mem.Valid() && {this, dir} !! mem.repr && wal in dir.wals
      modifies dir`wals, mem.repr
      ensures mem.Valid() && {this, dir} !! mem.repr && fresh(mem.repr - old(mem.repr))
      ensures dir.wals == old(dir.wals)[wal := old(dir.wals[wal]) + EncodeAll(crc, recs)]
      ensures LayerOf(mem.contents) == LayerOf(old(mem.contents)) + Written(OpsOf(recs))
      ensures mem == old(mem) && unchanged(this) && dir.tables == old(dir.tables) && dir.marker == old(dir.marker)
    {
      hide LayerOf, Written, Memtable.Valid, EncodeAll, Loggable, OpsOf;
      AppendLog(recs);
      WriteAll(mem, recs, levels);
    }

    /** One batch: its records are logged and written, and the sequence number moves on. */
    method WriteBatch(ops: seq<Op>, levels: Levels)
      requires Valid() && immutable == null && !flushErr && ops != [] && AllFit(RecordsFor(ops, nextSeq))
      modifies this`nextSeq, this`hist, dir`wals, mem.repr
      ensures Valid() && immutable == null && !flushErr && nextSeq == old(nextSeq) + |ops| && hist == old(hist) + ops
      ensures Possible(crc, old(Abs()), Batch(RecordsFor(ops, old(nextSeq))))
      ensures Abs() == After(crc, old(Abs()), Batch(RecordsFor(ops, old(nextSeq)))) && LayerOf(mem.contents) != map[]
      ensures fresh(mem.repr - old(mem.repr)) && (old(Lone()) ==> Lone())
    {
      hide LayerOf, Find, Written, Stack, Memtable.Valid, EncodeAll, Good, Possible, After, Loggable, OpsOf;
      ghost var s := Abs();
      var recs := RecordsFor(ops, nextSeq);
      BatchStep(crc, s, recs);
      BatchOps(ops, nextSeq);
      ghost var t := After(crc, s, Batch(recs));
      Store(recs, levels);
      nextSeq := nextSeq + |ops|;
      hist := hist + ops;
      assert dir.Files() == t.disk && Flush() == Idle;
      assert Abs() == t;
      SomeWritten(s.up.value.mem, ops);
    }

    method Swap()
      requires mem.Valid()
      modifies this`mem, this`immutable, this`wal, this`frozenWal, this`flushSeq, this`nextFlushSeq, this`nextWALSeq
      ensures immutable == old(mem) && frozenWal == old(wal) && flushSeq == old(nextFlushSeq)
      ensures mem.Valid() && mem.contents == [] && fresh(mem) && fresh(mem.repr)
      ensures wal == old(nextWALSeq) && nextWALSeq == old(nextWALSeq) + 1 && nextFlushSeq == old(nextFlushSeq) + 1
    {
      immutable, frozenWal, flushSeq := mem, wal, nextFlushSeq;
      mem := new Memtable();
      wal, nextWALSeq, nextFlushSeq := nextWALSeq, nextWALSeq + 1, nextFlushSeq + 1;
    }

    /** startFlushLocked: the memtable and its log file are set aside, and fresh ones take over. */
    method StartFlush()
      requires Valid() && immutable == null && !flushErr && LayerOf(mem.contents) != map[]
      modifies this`mem, this`immutable, this`wal, this`frozenWal, this`flushSeq, this`nextFlushSeq, this`nextWALSeq, dir`wals
      ensures Valid() && Possible(crc, old(Abs()), Freeze) && Abs() == After(crc, old(Abs()), Freeze) && immutable == old(mem) && fresh(mem.repr)
      ensures old(Lone()) ==> Lone()
    {
      hide LayerOf, Find, Written, Stack, Memtable.Valid, Good, Possible, After;
      ghost var s := Abs();
      FreezeStep(crc, s);
      EmptyLayer();
      ghost var t := After(crc, s, Freeze);
      dir.OpenLog(nextWALSeq);
      Swap();
      assert dir.Files() == t.disk;
      assert Flush() == t.up.value.flush;
      assert Abs() == t;
      FlushLogs(crc, t);
    }

    /** runFlush, off the lock: the frozen memtable is written out as a table. */
    method WriteTable()
      requires Valid() && immutable != null
      modifies dir`tables
      ensures Valid() && Possible(crc, old(Abs()), TableDone(immutable.contents))
      ensures Abs() == After(crc, old(Abs()), TableDone(immutable.contents)) && flushSeq in dir.tables && dir.tables[flushSeq] == Some(immutable.contents)
    {
      hide LayerOf, Find, Written, Stack, Memtable.Valid, Good, Possible, After;
      ghost var s := Abs();
      dir.tables := dir.tables[flushSeq := None];
      var items := immutable.Scan();
      dir.tables := dir.tables[flushSeq := Some(items)];
      TableStep(crc, s, items);
      assert dir.Files() == After(crc, s, TableDone(items)).disk;
    }

    /** runFlush, under the lock: the table takes the frozen memtable's place. */
    method Install()
      requires Valid() && immutable != null && flushSeq in dir.tables && dir.tables[flushSeq].Some?
      modifies this`sstables, this`immutable
      ensures Valid() && immutable == null && Possible(crc, old(Abs()), EngineSteps.Install) && Abs() == After(crc, old(Abs()), EngineSteps.Install)
      ensures sstables == [SSTable(flushSeq, dir.tables[flushSeq].value)] + old(sstables)
    {
      hide LayerOf, Find, Written, Stack, Memtable.Valid, Good, Possible, After;
      ghost var s, ts := Abs(), sstables;
      InstallStep(crc, s);
      FlushLogs(crc, s);
      sstables := [SSTable(flushSeq, dir.tables[flushSeq].value)] + sstables;
      immutable := null;
      StackNewest(SSTable(flushSeq, dir.tables[flushSeq].value), ts);
    }

    /** runFlush when the table could not be written or opened: the error sticks, and the frozen memtable is dropped. */
    method FailFlush()
      requires Valid() && immutable != null
      modifies this`flushErr, this`immutable, this`lost
      ensures Valid() && immutable == null && flushErr
      ensures Possible(crc, old(Abs()), FlushFail) && Abs() == After(crc, old(Abs()), FlushFail)
    {
      hide LayerOf, Find, Written, Stack, Memtable.Valid, Good, Possible, After;
      ghost var s := Abs();
      FailStep(crc, s);
      flushErr, lost, immutable := true, LayerOf(immutable.contents), null;
    }

    /** runFlush, off the lock again: the log file of a flushed memtable is removed, whatever other flushes are doing. */
    method RemoveLog(n: nat)
      requires Valid() && Unused(Now(), n) && n in dir.wals
      modifies dir`wals
      ensures dir.wals == old(dir.wals) - {n} && Possible(crc, old(Abs()), RemoveWal(n)) && Abs() == After(crc, old(Abs()), RemoveWal(n))
      ensures SafeRemoval(crc, old(dir.Files()), old(Now()), n) <==> Recovers(crc, dir.Files(), Written(hist))
      ensures SafeRemoval(crc, old(dir.Files()), old(Now()), n) ==> Valid()
    {
      hide LayerOf, Find, Written, Stack, Memtable.Valid, Good, SafeRemoval, Recovers;
      ghost var s := Abs();
      RemovalExact(crc, s, n);
      if SafeRemoval(crc, s.disk, s.up.value, n) { RemoveWalGood(crc, s, n); }
      dir.wals := dir.wals - {n};
    }

    /** A flush with no other one in its way; false when it failed. */
    method RunFlush(fails: bool) returns (ok: bool)
      requires Valid() && immutable != null
      modifies this`sstables, this`immutable, this`flushErr, this`lost, dir`tables, dir`wals
      ensures immutable == null && ok == !fails && hist == old(hist) && mem == old(mem) && nextSeq == old(nextSeq)
      ensures old(Lone()) ==> Valid() && flushErr == fails && (ok ==> Lone())
      ensures ok ==> sstables == [SSTable(old(flushSeq), old(immutable.contents))] + old(sstables) && frozenWal !in dir.wals
      ensures !ok ==> flushErr && dir.wals == old(dir.wals) && sstables == old(sstables)
    {
      hide LayerOf, Find, Written, Stack, Memtable.Valid, Good, Possible, After, SafeRemoval, Recovers;
      if fails {
        FailFlush();
        return false;
      }
      FlushLogs(crc, Abs());
      WriteTable();
      Install();
      ghost var d, r := dir.Files(), Now();
      RemoveLog(frozenWal);
      if forall n :: n in d.wals && d.marker <= n ==> frozenWal <= n { OldestSafe(crc, d, r, frozenWal); }
      return true;
    }
  }

  // ------------------------------------------------------------- the steps, spelled out

  lemma BatchStep(crc: Checksum, s: State, recs: seq<Record>)
    requires Good(crc, s) && s.up.Some? && s.up.value.flush.Idle? && recs != [] && AllFit(recs)
    ensures Possible(crc, s, Batch(recs)) && Good(crc, After(crc, s, Batch(recs)))
    ensures var d, r := s.disk, s.up.value;
            && r.wal in d.wals
            && After(crc, s, Batch(recs)) == State(Disk(d.wals[r.wal := d.wals[r.wal] + EncodeAll(crc, recs)], d.tables, d.marker),
                                                   Some(Running(r.mem + Written(OpsOf(recs)), r.wal, Idle, r.tables, r.nextFlush, r.nextWal)),
                                                   s.hist + OpsOf(recs))
  {
    hide Good;
    LogThere(crc, s);
    BatchGood(crc, s, recs);
  }

  lemma FreezeStep(crc: Checksum, s: State)
    requires Good(crc, s) && s.up.Some? && s.up.value.flush.Idle? && s.up.value.mem != map[]
    ensures Possible(crc, s, Freeze) && Good(crc, After(crc, s, Freeze)) && s.up.value.nextWal !in s.disk.wals
    ensures var d, r := s.disk, s.up.value;
            After(crc, s, Freeze) == State(Disk(d.wals[r.nextWal := []], d.tables, d.marker),
                                           Some(Running(map[], r.nextWal, Busy(r.mem, r.wal, r.nextFlush, false), r.tables, r.nextFlush + 1, r.nextWal + 1)),
                                           s.hist)
  {
    hide Good;
    NextFree(crc, s);
    FreezeGood(crc, s);
  }

  lemma TableStep(crc: Checksum, s: State, items: seq<Item>)
    requires Good(crc, s) && s.up.Some? && Frozen(s.up.value) && Sorted(items) && LayerOf(items) == s.up.value.flush.layer
    ensures Possible(crc, s, TableDone(items)) && Good(crc, After(crc, s, TableDone(items)))
    ensures After(crc, s, TableDone(items))
            == State(Disk(s.disk.wals, s.disk.tables[s.up.value.flush.number := Some(items)], s.disk.marker), s.up, s.hist)
  {
    hide Good, LayerOf, Sorted;
    TableKeeps(crc, s, Some(items));
  }

  lemma InstallStep(crc: Checksum, s: State)
    requires Good(crc, s) && s.up.Some? && Frozen(s.up.value)
    requires s.up.value.flush.number in s.disk.tables && s.disk.tables[s.up.value.flush.number].Some?
    ensures Possible(crc, s, Install) && Good(crc, After(crc, s, Install))
    ensures var r := s.up.value;
            && LayerOf(s.disk.tables[r.flush.number].value) == r.flush.layer
            && After(crc, s, Install) == State(s.disk, Some(Running(r.mem, r.wal, Idle, r.tables + r.flush.layer, r.nextFlush, r.nextWal)), s.hist)
  {
    hide LayerOf, Sorted, Tables, Logs, Written, Holding, ValidLen;
    InstallGood(crc, s);
  }

  lemma FailStep(crc: Checksum, s: State)
    requires Good(crc, s) && s.up.Some? && Frozen(s.up.value)
    ensures Possible(crc, s, FlushFail) && Good(crc, After(crc, s, FlushFail))
    ensures var r := s.up.value;
            After(crc, s, FlushFail)
            == State(s.disk, Some(Running(r.mem, r.wal, Busy(r.flush.layer, r.flush.wal, r.flush.number, true), r.tables, r.nextFlush, r.nextWal)), s.hist)
  {
    hide Good;
    FlushFailGood(crc, s);
  }

  /** The frozen memtable's log file is on disk and is not the active one. */
  lemma FlushLogs(crc: Checksum, s: State)
    requires Good(crc, s) && s.up.Some? && s.up.value.flush.Busy?
    ensures s.up.value.flush.wal in s.disk.wals && s.up.value.flush.wal < s.up.value.wal
    ensures s.up.value.flush.number < s.up.value.nextFlush
    ensures forall n :: n in s.disk.wals ==> !(s.up.value.flush.wal < n < s.up.value.wal)
  {
    hide LayerOf, Tables, Logs, Written, Holding, ValidLen, LogLayer;
  }

  lemma RestoreStep(crc: Checksum, s: State, items: seq<Item>)
    requires Good(crc, s) && s.up.Some? && !Frozen(s.up.value) && Sorted(items)
    ensures Possible(crc, s, Restore(items)) && Good(crc, After(crc, s, Restore(items)))
    ensures var d, n := s.disk, RestoreNumber(s.up.value);
            && n !in d.wals && (forall k :: k in d.wals ==> k < n)
            && After(crc, s, Restore(items)) == State(Disk(d.wals[n := []], d.tables[n := Some(items)], n),
                                                      Some(Running(map[], n, Idle, LayerOf(items), n + 1, n + 1)), ItemOps(items))
  {
    hide Good, LayerOf, Sorted;
    assert forall k :: k in s.disk.wals ==> k < RestoreNumber(s.up.value) by { LogsBelowNext(crc, s); }
    RestoreGood(crc, s, items);
  }

  lemma LogsBelowNext(crc: Checksum, s: State)
    requires Good(crc, s) && s.up.Some?
    ensures forall k :: k in s.disk.wals ==> k < s.up.value.nextWal
  {
    hide LayerOf, Tables, Logs, Written, Holding, ValidLen, LogLayer;
  }

  lemma StackNewest(t: SSTable, ts: seq<SSTable>)
    ensures Stack([t] + ts) == Stack(ts) + LayerOf(t.items)
  {
    hide LayerOf;
    assert ([t] + ts)[1..] == ts;
  }

  lemma LogThere(crc: Checksum, s: State)
    requires Good(crc, s) && s.up.Some?
    ensures s.up.value.wal in s.disk.wals
  {
  }

  /** The next log file's number is not taken. */
  lemma NextFree(crc: Checksum, s: State)
    requires Good(crc, s) && s.up.Some?
    ensures s.up.value.nextWal !in s.disk.wals
  {
  }

  lemma EmptyLayer()
    ensures LayerOf([]) == map[]
  {
  }

  /** What a record leaves in the memtable. */
  function ItemFor(rec: Record): Item {
    if rec.kind == RecordDelete then Item(rec.key, [], rec.seqNum, true) else Item(rec.key, rec.value, rec.seqNum, false)
  }

  /** Every entry can be logged again. */
  ghost predicate Loggable(items: seq<Item>) {
    forall key :: Find(items, key).Some? ==> Fits(RecordOf(Find(items, key).value))
  }

  lemma LoggableWrite(before: seq<Item>, after: seq<Item>, rec: Record)
    requires Loggable(before) && Fits(rec)
    requires forall key :: Find(after, key) == if key == rec.key then Some(ItemFor(rec)) else Find(before, key)
    ensures Loggable(after)
  {
    hide Find;
  }

  /** Heights for the skip list's towers. */
  type Levels = f: nat -> nat | forall n :: 1 <= f(n) <= MaxHeight witness (n: nat) => 1

  /** The memtable takes records in order. */
  method WriteAll(m: Memtable, recs: seq<Record>, levels: Levels)
    requires m.Valid()
    modifies m.repr
    ensures m.Valid() && fresh(m.repr - old(m.repr))
    ensures Loggable(old(m.contents)) && AllFit(recs) ==> Loggable(m.contents)
    ensures LayerOf(m.contents) == LayerOf(old(m.contents)) + Written(OpsOf(recs))
  {
    hide LayerOf, Find, Written, Memtable.Valid, Loggable;
    ghost var before, ops := LayerOf(m.contents), OpsOf(recs);
    NothingWritten(ops);
    for i := 0 to |recs|
      invariant m.Valid() && fresh(m.repr - old(m.repr)) && LayerOf(m.contents) == before + Written(ops[..i])
      invariant Loggable(old(m.contents)) && AllFit(recs) ==> Loggable(m.contents)
    {
      ghost var items := m.contents;
      m.Write(ItemFor(recs[i]), levels(i));
      LayerWrite(items, m.contents, ItemFor(recs[i]));
      if Loggable(items) && AllFit(recs) { LoggableWrite(items, m.contents, recs[i]); }
      WrittenOne(ops, i);
    }
    assert ops[..|ops|] == ops;
  }

  lemma NothingWritten(ops: seq<Op>)
    ensures Written(ops[..0]) == map[]
  {
  }

  /** The tables, newest first. */
  method SearchTables(ts: seq<SSTable>, key: Bytes) returns (r: Option<Bytes>)
    ensures r == Answer(Stack(ts), key)
  {
    hide LayerOf, Find, Stack;
    var i := 0;
    while i < |ts|
      invariant 0 <= i <= |ts| && Answer(Stack(ts), key) == Answer(Stack(ts[i..]), key)
    {
      var found := Find(ts[i].items, key);
      StackTop(ts[i..], key);
      assert ts[i..][1..] == ts[i + 1..];
      if found.Some? { return EntryOfItem(found.value); }
      i := i + 1;
    }
    assert ts[i..] == [];
    StackNone(key);
    return None;
  }

  lemma OpenView(crc: Checksum, s: State)
    requires Good(crc, s) && s.up.Some? && (s.up.value.flush.Busy? ==> !s.up.value.flush.failed)
    ensures View(s.up.value) == Written(s.hist)
  {
    hide UpFiles, Clean, Written, Numbered;
  }

  lemma StackTop(ts: seq<SSTable>, key: Bytes)
    requires ts != []
    ensures Answer(Stack(ts), key) == match Find(ts[0].items, key) case Some(it) => EntryOfItem(it) case None => Answer(Stack(ts[1..]), key)
  {
    hide LayerOf, Find;
    FindLayer(ts[0].items, key);
  }

  lemma StackNone(key: Bytes)
    ensures Answer(Stack([]), key) == None
  {
  }
}
