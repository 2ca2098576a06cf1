/**
 * The storage engine as a machine over its disk operations: opening and its own
 * crashes, batches, background flushes, snapshot restores and process crashes at
 * any of these steps.  `hist` is what the store should hold: the operations of
 * every acknowledged batch since the last restored snapshot, with the part of a
 * batch that a crash cut short.
 */
module EngineSteps {
  import opened Bytes
  import opened RaftTypes
  import opened Runs
  import opened Wal
  import opened Stores

  /** A background flush: the frozen memtable, its log file, and the table it is written to. */
  datatype Flush = Idle | Busy(layer: Layer, wal: nat, number: nat, failed: bool)

  /** An open engine; `tables` is what its SSTables hold together. */
  datatype Running = Running(mem: Layer, wal: nat, flush: Flush, tables: Layer, nextFlush: nat, nextWal: nat)

  datatype State = State(disk: Disk, up: Option<Running>, hist: seq<Op>)

  datatype Step =
    | Trim(n: nat)
    | Open(wal: nat, flush: nat, recs: seq<Record>)
    | OpenCrash(wal: nat, flush: nat, recs: seq<Record>, cut: nat, gone: set<nat>)
    | Batch(recs: seq<Record>)
    | BatchCrash(recs: seq<Record>, cut: nat)
    | Freeze
    | TableHalf
    | TableDone(items: seq<Item>)
    | Install
    | FlushFail
    | RemoveWal(n: nat)
    | RemoveTable(n: nat)
    | Restore(items: seq<Item>)
    | RestoreCrash(items: seq<Item>, whole: bool, log: bool)
    | RestoreFail
    | Crash

  // ------------------------------------------------------------------ what Open needs

  /** The number discovery gives the next file: one above the highest live one. */
  ghost predicate IsNext(files: set<nat>, marker: nat, n: nat) {
    (forall k :: k in files && marker <= k ==> k < n) && (n == 0 || (n - 1 in files && marker <= n - 1))
  }

  /** Open refuses a directory that holds a live half-written table. */
  ghost predicate Openable(d: Disk) {
    forall n :: n in d.tables && d.marker <= n ==> d.tables[n].Some?
  }

  ghost function LiveWals(d: Disk): set<nat> { set n | n in d.wals && d.marker <= n }

  /** The recovered memtable, logged again: one record for each of its keys. */
  ghost predicate Relogs(recs: seq<Record>, l: Layer) {
    && AllFit(recs) && Written(OpsOf(recs)) == l
    && forall i, j :: 0 <= i < j < |recs| ==> recs[i].key != recs[j].key
  }

  ghost predicate Opens(crc: Checksum, d: Disk, wal: nat, flush: nat, recs: seq<Record>) {
    && Openable(d) && IsNext(d.wals.Keys, d.marker, wal) && IsNext(d.tables.Keys, d.marker, flush)
    && Relogs(recs, Logs(crc, d.wals, d.marker, wal))
  }

  // ------------------------------------------------------------------ a running engine

  /** What the engine answers reads from. */
  function View(r: Running): Layer {
    r.tables + (if r.flush.Busy? && !r.flush.failed then r.flush.layer else map[]) + r.mem
  }

  function RestoreNumber(r: Running): nat { if r.nextWal > r.nextFlush then r.nextWal else r.nextFlush }

  predicate Frozen(r: Running) { r.flush.Busy? && !r.flush.failed }

  /** A log file that the engine is done with. */
  predicate Unused(r: Running, n: nat) { n != r.wal && (r.flush.Busy? ==> n != r.flush.wal) }

  /**
   * When removing log file n leaves the recovered store as it was: no older file
   * left on disk holds a different entry for one of its keys, unless a newer file
   * holds that key too.
   */
  ghost predicate SafeRemoval(crc: Checksum, d: Disk, r: Running, n: nat) {
    var own, older, newer := LogAt(crc, d.wals, n), Logs(crc, d.wals, d.marker, n), Logs(crc, d.wals, n + 1, r.nextWal);
    d.marker <= n ==> forall key :: key in own && key in older && key !in newer ==> older[key] == own[key]
  }

  /**
   * When a snapshot's table that was written but never committed does no harm: the
   * tables already gave its entries, or the log files cover them.
   */
  ghost predicate HarmlessTable(crc: Checksum, d: Disk, r: Running, l: Layer) {
    var tables, logs := Tables(d.tables, d.marker, r.nextFlush), Logs(crc, d.wals, d.marker, r.nextWal);
    forall key :: key in l && key !in logs ==> key in tables && tables[key] == l[key]
  }

  // ------------------------------------------------------------------------ steps

  /** What the code may do next. */
  ghost predicate Possible(crc: Checksum, s: State, a: Step) {
    match a
    case Trim(n) => s.up.None? && n in s.disk.wals
    case Open(wal, flush, recs) => s.up.None? && Opens(crc, s.disk, wal, flush, recs)
    case OpenCrash(wal, flush, recs, cut, gone) =>
      && s.up.None? && Opens(crc, s.disk, wal, flush, recs)
      && gone <= LiveWals(s.disk) && cut <= |EncodeAll(crc, recs)| && (gone != {} ==> cut == |EncodeAll(crc, recs)|)
    case Batch(recs) => s.up.Some? && s.up.value.flush.Idle? && recs != [] && AllFit(recs) && s.up.value.wal in s.disk.wals
    case BatchCrash(recs, cut) =>
      && s.up.Some? && s.up.value.flush.Idle? && recs != [] && AllFit(recs) && s.up.value.wal in s.disk.wals
      && cut <= |EncodeAll(crc, recs)|
    case Freeze => s.up.Some? && s.up.value.flush.Idle? && s.up.value.mem != map[]
    case TableHalf => s.up.Some? && Frozen(s.up.value)
    case TableDone(items) => s.up.Some? && Frozen(s.up.value) && Sorted(items) && LayerOf(items) == s.up.value.flush.layer
    case Install =>
      && s.up.Some? && Frozen(s.up.value)
      && s.up.value.flush.number in s.disk.tables && s.disk.tables[s.up.value.flush.number].Some?
    case FlushFail => s.up.Some? && Frozen(s.up.value)
    case RemoveWal(n) => s.up.Some? && Unused(s.up.value, n) && n in s.disk.wals
    case RemoveTable(n) => s.up.Some? && n < s.disk.marker
    case Restore(items) => s.up.Some? && !Frozen(s.up.value) && Sorted(items)
    case RestoreCrash(items, whole, log) => s.up.Some? && !Frozen(s.up.value) && Sorted(items) && (log ==> whole)
    case RestoreFail => s.up.Some? && !Frozen(s.up.value)
    case Crash => s.up.Some?
  }

  /** The two steps that need care, and when they do no harm. */
  ghost predicate Orderly(crc: Checksum, s: State, a: Step)
    requires Possible(crc, s, a)
  {
    match a
    case RemoveWal(n) => SafeRemoval(crc, s.disk, s.up.value, n)
    case RestoreCrash(items, true, log) => HarmlessTable(crc, s.disk, s.up.value, LayerOf(items))
    case _ => true
  }

  ghost predicate Enabled(crc: Checksum, s: State, a: Step) { Possible(crc, s, a) && Orderly(crc, s, a) }

  ghost function Reopened(crc: Checksum, d: Disk, wal: nat, b: Bytes, gone: set<nat>): Disk {
    d.(wals := (d.wals - gone)[wal := b])
  }

  ghost function After(crc: Checksum, s: State, a: Step): State
    requires Possible(crc, s, a)
  {
    var d := s.disk;
    match a
    case Trim(n) => s.(disk := d.(wals := d.wals[n := d.wals[n][..ValidLen(crc, d.wals[n])]]))
    case Open(wal, flush, recs) =>
      s.(disk := Reopened(crc, d, wal, EncodeAll(crc, recs), LiveWals(d)),
         up := Some(Running(Logs(crc, d.wals, d.marker, wal), wal, Idle, Tables(d.tables, d.marker, flush), flush, wal + 1)))
    case OpenCrash(wal, flush, recs, cut, gone) => s.(disk := Reopened(crc, d, wal, EncodeAll(crc, recs)[..cut], gone))
    case Batch(recs) =>
      var r := s.up.value;
      State(d.(wals := d.wals[r.wal := d.wals[r.wal] + EncodeAll(crc, recs)]),
            Some(r.(mem := r.mem + Written(OpsOf(recs)))), s.hist + OpsOf(recs))
    case BatchCrash(recs, cut) =>
      var r := s.up.value;
      State(d.(wals := d.wals[r.wal := d.wals[r.wal] + EncodeAll(crc, recs)[..cut]]),
            None, s.hist + OpsOf(recs[..Whole(crc, recs, cut)]))
    case Freeze =>
      var r := s.up.value;
      s.(disk := d.(wals := d.wals[r.nextWal := []]),
         up := Some(Running(map[], r.nextWal, Busy(r.mem, r.wal, r.nextFlush, false), r.tables, r.nextFlush + 1, r.nextWal + 1)))
    case TableHalf => s.(disk := d.(tables := d.tables[s.up.value.flush.number := None]))
    case TableDone(items) => s.(disk := d.(tables := d.tables[s.up.value.flush.number := Some(items)]))
    case Install =>
      var r := s.up.value;
      s.(up := Some(r.(flush := Idle, tables := r.tables + r.flush.layer)))
    case FlushFail => s.(up := Some(s.up.value.(flush := s.up.value.flush.(failed := true))))
    case RemoveWal(n) => s.(disk := d.(wals := d.wals - {n}))
    case RemoveTable(n) => s.(disk := d.(tables := d.tables - {n}))
    case Restore(items) =>
      var n := RestoreNumber(s.up.value);
      State(Disk(d.wals[n := []], d.tables[n := Some(items)], n),
            Some(Running(map[], n, Idle, LayerOf(items), n + 1, n + 1)), ItemOps(items))
    case RestoreCrash(items, whole, log) =>
      var n := RestoreNumber(s.up.value);
      s.(disk := d.(wals := if log then d.wals[n := []] else d.wals,
                    tables := d.tables[n := if whole then Some(items) else None]), up := None)
    case RestoreFail => s.(disk := d.(tables := d.tables[RestoreNumber(s.up.value) := None]))
    case Crash => s.(up := None)
  }

  // ------------------------------------------------------------------- the invariant

  /** The first log file that still stands for something not in a table. */
  function FirstWal(r: Running): nat { if r.flush.Busy? then r.flush.wal else r.wal }

  function FrozenLayer(r: Running): Layer { if r.flush.Busy? then r.flush.layer else map[] }

  /** The number above the installed tables. */
  function FirstTable(r: Running): nat { if r.flush.Busy? then r.flush.number else r.nextFlush }

  /** Every live file is at or above the marker's number, and some table and some log file are. */
  ghost predicate Numbered(d: Disk) {
    d.marker > 0 ==> d.marker in d.tables && exists n :: n in d.wals && d.marker <= n
  }

  ghost predicate UpFiles(crc: Checksum, d: Disk, r: Running) {
    && r.nextWal == r.wal + 1 && d.marker <= FirstWal(r) && d.marker <= FirstTable(r)
    && (forall n :: n in d.wals ==> n <= r.wal)
    && (forall n :: n in d.tables ==> n < r.nextFlush || (d.tables[n].None? && n <= RestoreNumber(r)))
    && r.wal in d.wals && LogLayer(crc, d.wals[r.wal]) == r.mem
    && (r.flush.Busy? ==>
      && r.flush.wal < r.wal && r.flush.wal in d.wals && LogLayer(crc, d.wals[r.flush.wal]) == r.flush.layer
      && (forall n :: n in d.wals ==> !(r.flush.wal < n < r.wal))
      && r.nextFlush == r.flush.number + 1
      && (r.flush.number in d.tables && d.tables[r.flush.number].Some? ==> LayerOf(d.tables[r.flush.number].value) == r.flush.layer))
    && r.tables == Tables(d.tables, d.marker, FirstTable(r))
  }

  /** The active log file ends with a whole record. */
  ghost predicate Clean(crc: Checksum, d: Disk, r: Running) {
    r.wal in d.wals && ValidLen(crc, d.wals[r.wal]) == |d.wals[r.wal]|
  }

  /** The store is in the tables, the frozen memtable and the active one; older log files add nothing. */
  ghost predicate Holding(tables: Layer, older: Layer, frozen: Layer, mem: Layer, store: Layer) {
    tables + frozen + mem == store && tables + older + frozen + mem == store
  }

  ghost predicate UpHolds(crc: Checksum, d: Disk, r: Running, store: Layer) {
    Holding(r.tables, Logs(crc, d.wals, d.marker, FirstWal(r)), FrozenLayer(r), r.mem, store)
  }

  ghost predicate Recovers(crc: Checksum, d: Disk, store: Layer) {
    forall hi :: Bounds(d, hi) ==> Recovered(crc, d, hi) == store
  }

  ghost predicate Good(crc: Checksum, s: State) {
    && Numbered(s.disk)
    && match s.up
       case None => Recovers(crc, s.disk, Written(s.hist))
       case Some(r) => UpFiles(crc, s.disk, r) && Clean(crc, s.disk, r) && UpHolds(crc, s.disk, r, Written(s.hist))
  }
}
