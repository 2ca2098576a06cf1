/**
 * A store as layers of writes.  A layer says which keys it writes or deletes;
 * where two layers are put together, the newer covers the older.
 */
module Stores {
  import opened Bytes
  import opened RaftTypes
  import opened Runs
  import opened Wal

  /** A BatchOp. */
  datatype Op = Op(key: Bytes, value: Bytes, deleted: bool)

  /** Each key's newest entry: a value, or None for a tombstone. */
  type Layer = map<Bytes, Option<Bytes>>

  function EntryOf(op: Op): Option<Bytes> { if op.deleted then None else Some(op.value) }

  /** What a run of operations leaves behind. */
  function Written(ops: seq<Op>): Layer {
    if ops == [] then map[]
    else
      var last := ops[|ops| - 1];
      Written(ops[..|ops| - 1])[last.key := EntryOf(last)]
  }

  /** What Get gives for a key. */
  function Answer(l: Layer, key: Bytes): Option<Bytes> { if key in l then l[key] else None }

  /** Two layers a reader cannot tell apart. */
  ghost predicate SameAnswers(a: Layer, b: Layer) { forall key :: Answer(a, key) == Answer(b, key) }

  const RecordPut: Byte := 0
  const RecordDelete: Byte := 1

  function OpOf(rec: Record): Op { Op(rec.key, rec.value, rec.kind == RecordDelete) }

  function OpsOf(recs: seq<Record>): (ops: seq<Op>)
    ensures |ops| == |recs| && forall i :: 0 <= i < |recs| ==> ops[i] == OpOf(recs[i])
  {
    if recs == [] then [] else OpsOf(recs[..|recs| - 1]) + [OpOf(recs[|recs| - 1])]
  }

  function ItemOp(it: Item): Op { Op(it.key, it.value, it.deleted) }

  function ItemOps(items: seq<Item>): (ops: seq<Op>)
    ensures |ops| == |items| && forall i :: 0 <= i < |items| ==> ops[i] == ItemOp(items[i])
  {
    if items == [] then [] else ItemOps(items[..|items| - 1]) + [ItemOp(items[|items| - 1])]
  }

  /** What a memtable or a table holds. */
  function LayerOf(items: seq<Item>): Layer { Written(ItemOps(items)) }

  // ------------------------------------------------------------------- layers

  lemma CoverAssoc(a: Layer, b: Layer, c: Layer)
    ensures a + b + c == a + (b + c)
  {
  }

  lemma {:induction false} WrittenAppend(a: seq<Op>, b: seq<Op>)
    ensures Written(a + b) == Written(a) + Written(b)
    decreases |b|
  {
    if b == [] {
      assert a + b == a;
    } else {
      assert (a + b)[..|a + b| - 1] == a + b[..|b| - 1];
      WrittenAppend(a, b[..|b| - 1]);
    }
  }

  lemma {:induction false} WrittenKeys(ops: seq<Op>, key: Bytes)
    ensures key in Written(ops) <==> exists i :: 0 <= i < |ops| && ops[i].key == key
    decreases |ops|
  {
    if ops != [] {
      WrittenKeys(ops[..|ops| - 1], key);
      assert ops == ops[..|ops| - 1] + [ops[|ops| - 1]];
    }
  }

  /** Operations on different keys: each is what its key holds. */
  lemma {:induction false} WrittenAt(ops: seq<Op>, i: nat)
    requires i < |ops| && forall j :: i < j < |ops| ==> ops[j].key != ops[i].key
    ensures ops[i].key in Written(ops) && Written(ops)[ops[i].key] == EntryOf(ops[i])
    decreases |ops|
  {
    if i < |ops| - 1 { WrittenAt(ops[..|ops| - 1], i); }
  }

  lemma OpsAppend(a: seq<Record>, b: seq<Record>)
    ensures OpsOf(a + b) == OpsOf(a) + OpsOf(b)
  {
  }

  lemma OpsTake(recs: seq<Record>, k: nat)
    requires k <= |recs|
    ensures OpsOf(recs[..k]) == OpsOf(recs)[..k]
  {
  }

  // ------------------------------------------------------------------- the files

  /** An SSTable file: its entries, or None for a half-written one. */
  type TableFile = Option<seq<Item>>

  /** A directory: log files, tables and the restore marker (0 for none). */
  datatype Disk = Disk(wals: map<nat, Bytes>, tables: map<nat, TableFile>, marker: nat)

  function LogLayer(crc: Checksum, b: Bytes): Layer { Written(OpsOf(Records(crc, b))) }

  function LogAt(crc: Checksum, wals: map<nat, Bytes>, n: nat): Layer {
    if n in wals then LogLayer(crc, wals[n]) else map[]
  }

  function FileLayer(t: TableFile): Layer { if t.Some? then LayerOf(t.value) else map[] }

  function TableAt(tables: map<nat, TableFile>, n: nat): Layer {
    if n in tables then FileLayer(tables[n]) else map[]
  }

  /** The log files numbered lo up to hi, replayed in that order. */
  function Logs(crc: Checksum, wals: map<nat, Bytes>, lo: nat, hi: nat): Layer {
    if hi <= lo then map[] else Logs(crc, wals, lo, hi - 1) + LogAt(crc, wals, hi - 1)
  }

  /** The tables numbered lo up to hi, newer over older. */
  function Tables(tables: map<nat, TableFile>, lo: nat, hi: nat): Layer {
    if hi <= lo then map[] else Tables(tables, lo, hi - 1) + TableAt(tables, hi - 1)
  }

  ghost predicate Bounds(d: Disk, hi: nat) {
    (forall n :: n in d.wals ==> n < hi) && (forall n :: n in d.tables ==> n < hi)
  }

  /** What Open finds in files numbered below hi: files under the marker count for nothing. */
  function Recovered(crc: Checksum, d: Disk, hi: nat): Layer {
    Tables(d.tables, d.marker, hi) + Logs(crc, d.wals, d.marker, hi)
  }

  lemma {:induction false} LogsSplit(crc: Checksum, wals: map<nat, Bytes>, lo: nat, mid: nat, hi: nat)
    requires lo <= mid <= hi
    ensures Logs(crc, wals, lo, hi) == Logs(crc, wals, lo, mid) + Logs(crc, wals, mid, hi)
    decreases hi
  {
    hide LogAt;
    if mid < hi {
      LogsSplit(crc, wals, lo, mid, hi - 1);
      CoverAssoc(Logs(crc, wals, lo, mid), Logs(crc, wals, mid, hi - 1), LogAt(crc, wals, hi - 1));
    } else {
      assert Logs(crc, wals, mid, hi) == map[];
    }
  }

  /** Only files in the range count. */
  lemma {:induction false} LogsSame(crc: Checksum, a: map<nat, Bytes>, b: map<nat, Bytes>, lo: nat, hi: nat)
    requires forall n :: lo <= n < hi ==> LogAt(crc, a, n) == LogAt(crc, b, n)
    ensures Logs(crc, a, lo, hi) == Logs(crc, b, lo, hi)
    decreases hi
  {
    if lo < hi { LogsSame(crc, a, b, lo, hi - 1); }
  }

  lemma {:induction false} LogsNone(crc: Checksum, wals: map<nat, Bytes>, lo: nat, hi: nat)
    requires forall n :: lo <= n < hi ==> n !in wals
    ensures Logs(crc, wals, lo, hi) == map[]
    decreases hi
  {
    if lo < hi { LogsNone(crc, wals, lo, hi - 1); }
  }

  lemma {:induction false} TablesSplit(tables: map<nat, TableFile>, lo: nat, mid: nat, hi: nat)
    requires lo <= mid <= hi
    ensures Tables(tables, lo, hi) == Tables(tables, lo, mid) + Tables(tables, mid, hi)
    decreases hi
  {
    hide TableAt;
    if mid < hi {
      TablesSplit(tables, lo, mid, hi - 1);
      CoverAssoc(Tables(tables, lo, mid), Tables(tables, mid, hi - 1), TableAt(tables, hi - 1));
    } else {
      assert Tables(tables, mid, hi) == map[];
    }
  }

  lemma {:induction false} TablesSame(a: map<nat, TableFile>, b: map<nat, TableFile>, lo: nat, hi: nat)
    requires forall n :: lo <= n < hi ==> TableAt(a, n) == TableAt(b, n)
    ensures Tables(a, lo, hi) == Tables(b, lo, hi)
    decreases hi
  {
    if lo < hi { TablesSame(a, b, lo, hi - 1); }
  }

  lemma {:induction false} TablesNone(tables: map<nat, TableFile>, lo: nat, hi: nat)
    requires forall n :: lo <= n < hi && n in tables ==> tables[n].None?
    ensures Tables(tables, lo, hi) == map[]
    decreases hi
  {
    if lo < hi { TablesNone(tables, lo, hi - 1); }
  }

  /** Where the numbering stops does not matter, and half-written tables count for nothing. */
  lemma RecoveredTo(crc: Checksum, d: Disk, t: nat, w: nat, hi: nat)
    requires Bounds(d, hi) && (forall n :: n in d.tables && n >= d.marker && d.tables[n].Some? ==> n < t) && (forall n :: n in d.wals && n >= d.marker ==> n < w)
    ensures Recovered(crc, d, hi) == Tables(d.tables, d.marker, t) + Logs(crc, d.wals, d.marker, w)
  {
    hide Tables, Logs;
    LogsTo(crc, d.wals, d.marker, w, hi);
    TablesTo(d.tables, d.marker, t, hi);
  }

  lemma LogsTo(crc: Checksum, wals: map<nat, Bytes>, lo: nat, a: nat, b: nat)
    requires (forall n :: n in wals && n >= lo ==> n < a) && (forall n :: n in wals && n >= lo ==> n < b)
    ensures Logs(crc, wals, lo, a) == Logs(crc, wals, lo, b)
  {
    var m := if a < b then a else b;
    if m < lo {
      LogsNone(crc, wals, lo, a);
      LogsNone(crc, wals, lo, b);
    } else {
      LogsSplit(crc, wals, lo, m, a);
      LogsSplit(crc, wals, lo, m, b);
      LogsNone(crc, wals, m, a);
      LogsNone(crc, wals, m, b);
    }
  }

  lemma TablesTo(tables: map<nat, TableFile>, lo: nat, a: nat, b: nat)
    requires (forall n :: n in tables && n >= lo && tables[n].Some? ==> n < a) && (forall n :: n in tables && n >= lo && tables[n].Some? ==> n < b)
    ensures Tables(tables, lo, a) == Tables(tables, lo, b)
  {
    var m := if a < b then a else b;
    if m < lo {
      TablesNone(tables, lo, a);
      TablesNone(tables, lo, b);
    } else {
      TablesSplit(tables, lo, m, a);
      TablesSplit(tables, lo, m, b);
      TablesNone(tables, m, a);
      TablesNone(tables, m, b);
    }
  }
}
