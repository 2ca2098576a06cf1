/**
 * Where the engine falls short of its promises, and exactly when.
 *
 * A flush removes its log file after it has let go of the lock, so a later flush
 * can remove its own first; a snapshot's table is live before its marker is
 * written; and a half-written table keeps the directory from opening.
 * `EngineInvariant.RemovalExact`, `UncommittedExact` and `EngineRuns.OpensAgain`
 * say when these are harmless; the runs here are ones where they are not.
 */
module EngineLimits {
  import opened Bytes
  import opened RaftTypes
  import opened Runs
  import opened Wal
  import opened Stores
  import opened EngineSteps
  import opened EngineInvariant
  import opened EngineRuns

  const Key: Bytes := [107]
  const First := Record(1, RecordPut, Key, [1])
  const Second := Record(2, RecordPut, Key, [2])

  /** An engine that holds one write, in its log file and memtable. */
  function OneLog(crc: Checksum, rec: Record): Bytes { EncodeAll(crc, [rec]) }

  function OneLayer(rec: Record): Layer { map[rec.key := Some(rec.value)] }

  /** The table of a memtable that holds one write. */
  function OneTable(rec: Record): seq<Item> { [Item(rec.key, rec.value, rec.seqNum, false)] }

  lemma OneItem(rec: Record)
    ensures Sorted(OneTable(rec)) && ItemOps(OneTable(rec)) == [Op(rec.key, rec.value, false)] && LayerOf(OneTable(rec)) == OneLayer(rec)
  {
    var items := OneTable(rec);
    assert items[..0] == [];
    var ops := ItemOps(items);
    assert ops[..0] == [];
    assert Written(ops) == Written([])[rec.key := Some(rec.value)];
  }

  lemma OneRecord(crc: Checksum, rec: Record)
    requires rec.kind == RecordPut && Fits(rec)
    ensures OpsOf([rec]) == [Op(rec.key, rec.value, false)] && Written(OpsOf([rec])) == OneLayer(rec)
    ensures LogLayer(crc, OneLog(crc, rec)) == OneLayer(rec)
  {
    hide EncodeAll, Records;
    assert [rec][..0] == [];
    EncodedReplays(crc, [rec]);
    var ops := OpsOf([rec]);
    assert ops[..0] == [];
    assert Written(ops) == Written([])[rec.key := Some(rec.value)];
  }

  const Opened := State(Disk(map[0 := []], map[], 0), Some(Running(map[], 0, Idle, map[], 0, 1)), [])

  lemma OpensEmpty(crc: Checksum)
    ensures Next(crc, Fresh, Open(0, 0, []), Opened) && Opened == Resting(map[], map[], 0, map[], [])
  {
    assert LiveWals(Fresh.disk) == {};
    assert Relogs([], map[]);
  }

  /** An engine with an empty memtable over log file w. */
  function Resting(wals: map<nat, Bytes>, tables: map<nat, TableFile>, w: nat, t: Layer, hist: seq<Op>): State {
    State(Disk(wals[w := []], tables, 0), Some(Running(map[], w, Idle, t, w, w + 1)), hist)
  }

  ghost predicate Next(crc: Checksum, s: State, a: Step, t: State) {
    Possible(crc, s, a) && Orderly(crc, s, a) && t == After(crc, s, a)
  }

  lemma WriteOne(crc: Checksum, s: State, rec: Record) returns (t: State)
    requires s.up.Some? && s.up.value.flush.Idle? && s.up.value.mem == map[] && s.up.value.wal in s.disk.wals
    requires s.disk.wals[s.up.value.wal] == [] && Fits(rec) && rec.kind == RecordPut
    ensures Next(crc, s, Batch([rec]), t)
    ensures t == State(s.disk.(wals := s.disk.wals[s.up.value.wal := OneLog(crc, rec)]), Some(s.up.value.(mem := OneLayer(rec))),
                       s.hist + [Op(rec.key, rec.value, false)])
  {
    hide EncodeAll, OpsOf, Written, OneLayer;
    OneRecord(crc, rec);
    t := After(crc, s, Batch([rec]));
    assert map[] + OneLayer(rec) == OneLayer(rec);
    assert [] + OneLog(crc, rec) == OneLog(crc, rec);
  }

  lemma FlushIt(crc: Checksum, s: State, items: seq<Item>) returns (s2: State, s3: State, s4: State)
    requires s.up.Some? && s.up.value.flush.Idle? && s.up.value.mem != map[] && Sorted(items) && LayerOf(items) == s.up.value.mem
    ensures Next(crc, s, Freeze, s2) && Next(crc, s2, TableDone(items), s3) && Next(crc, s3, Install, s4)
    ensures var d, r := s.disk, s.up.value;
            s4 == State(Disk(d.wals[r.nextWal := []], d.tables[r.nextFlush := Some(items)], d.marker),
                        Some(Running(map[], r.nextWal, Idle, r.tables + r.mem, r.nextFlush + 1, r.nextWal + 1)), s.hist)
  {
    hide OpsOf, Written, EncodeAll, Records, LayerOf;
    s2 := After(crc, s, Freeze);
    s3 := After(crc, s2, TableDone(items));
    s4 := After(crc, s3, Install);
  }

  /** One write, made and flushed. */
  lemma FlushOne(crc: Checksum, wals: map<nat, Bytes>, tables: map<nat, TableFile>, w: nat, t: Layer, hist: seq<Op>, rec: Record)
    returns (s1: State, s2: State, s3: State, s4: State)
    requires Fits(rec) && rec.kind == RecordPut
    ensures var s := Resting(wals, tables, w, t, hist);
            Next(crc, s, Batch([rec]), s1) && Next(crc, s1, Freeze, s2) && Next(crc, s2, TableDone(OneTable(rec)), s3) && Next(crc, s3, Install, s4)
    ensures s4 == Resting(wals[w := OneLog(crc, rec)], tables[w := Some(OneTable(rec))], w + 1, t + OneLayer(rec),
                          hist + [Op(rec.key, rec.value, false)])
  {
    hide OneLog, OpsOf, Written, EncodeAll, Records, Possible, Orderly, After;
    s1 := WriteOne(crc, Resting(wals, tables, w, t, hist), rec);
    assert rec.key in s1.up.value.mem;
    OneItem(rec);
    s2, s3, s4 := FlushIt(crc, s1, OneTable(rec));
    assert s1.disk.wals == wals[w := OneLog(crc, rec)];
  }

  const LateSteps := [Open(0, 0, []), Batch([First]), Freeze, TableDone(OneTable(First)), Install,
                      Batch([Second]), Freeze, TableDone(OneTable(Second)), Install, RemoveWal(1)]

  /**
   * Two flushes whose log files are removed in the wrong order.  The second write
   * was acknowledged and is in the newest table, but the first one's log file is
   * replayed over it.
   */
  lemma LateRemoval(crc: Checksum)
    ensures exists states: seq<State> ::
              && Run(crc, states, LateSteps) && OrderlyTo(crc, states, LateSteps, 9)
              && Story(crc, LateSteps) == [Op(Key, [1], false), Op(Key, [2], false)]
              && Bounds(states[10].disk, 3) && Answer(Recovered(crc, states[10].disk, 3), Key) == Some([1])
  {
    hide Possible, Orderly, After, Recovered, Answer, Story, OneLog, OneLayer, OneTable;
    OpensEmpty(crc);
    var s2, s3, s4, s5 := FlushOne(crc, map[], map[], 0, map[], [], First);
    var wals, tables, t := map[0 := OneLog(crc, First)], map[0 := Some(OneTable(First))], map[] + OneLayer(First);
    var hist := [] + [Op(Key, [1], false)];
    assert s5 == Resting(wals, tables, 1, t, hist);
    var s6, s7, s8, s9 := FlushOne(crc, wals, tables, 1, t, hist, Second);
    var s10 := LateRemoved(crc, s9, wals, tables, t + OneLayer(Second), hist + [Op(Key, [2], false)]);
    var states := [Fresh, Opened, s2, s3, s4, s5, s6, s7, s8, s9, s10];
    assert Run(crc, states, LateSteps);
    assert OrderlyTo(crc, states, LateSteps, 9);
    RunStory(crc, states, LateSteps, 10);
    assert LateSteps[..10] == LateSteps;
  }

  lemma LateRemoved(crc: Checksum, s: State, wals: map<nat, Bytes>, tables: map<nat, TableFile>, t: Layer, hist: seq<Op>) returns (r: State)
    requires wals == map[0 := OneLog(crc, First)] && tables == map[0 := Some(OneTable(First))]
    requires s == Resting(wals[1 := OneLog(crc, Second)], tables[1 := Some(OneTable(Second))], 2, t, hist)
    ensures Possible(crc, s, RemoveWal(1)) && r == After(crc, s, RemoveWal(1)) && r.hist == hist
    ensures Bounds(r.disk, 3) && Answer(Recovered(crc, r.disk, 3), Key) == Some([1])
  {
    hide Recovered, Answer, OneLog, OneLayer, OneTable;
    r := After(crc, s, RemoveWal(1));
    assert r.disk.wals == map[0 := OneLog(crc, First), 2 := []];
    LateAnswer(crc, r.disk);
  }

  lemma LateAnswer(crc: Checksum, d: Disk)
    requires d.marker == 0 && d.wals == map[0 := OneLog(crc, First), 2 := []]
    requires d.tables == map[0 := Some(OneTable(First)), 1 := Some(OneTable(Second))]
    ensures Answer(Recovered(crc, d, 3), Key) == Some([1])
  {
    hide EncodeAll, LogLayer, LayerOf, Tables, Logs, OneTable, OneLog;
    OneRecord(crc, First);
    EmptyLog(crc);
    LogsLast(crc, d.wals, 0, 2);
    LogsLast(crc, d.wals, 0, 1);
    LogsLast(crc, d.wals, 0, 0);
  }

  // ---------------------------------------------------------------- an uncommitted snapshot

  /** A snapshot cut off between its table and its marker: an empty store comes back with the snapshot's key in it. */
  lemma UncommittedSeen(crc: Checksum)
    ensures var items := OneTable(First);
            && Next(crc, Fresh, Open(0, 0, []), Opened) && Possible(crc, Opened, RestoreCrash(items, true, false))
            && var t := After(crc, Opened, RestoreCrash(items, true, false));
               t.hist == [] && Bounds(t.disk, 2) && Answer(Recovered(crc, t.disk, 2), Key) == Some([1])
  {
    hide EncodeAll, Logs, Tables, LayerOf;
    OpensEmpty(crc);
    OneItem(First);
    var d := After(crc, Opened, RestoreCrash(OneTable(First), true, false)).disk;
    TablesLast(d.tables, 0, 1);
    LogsLast(crc, d.wals, 0, 1);
    LogsLast(crc, d.wals, 0, 0);
    LogsNone(crc, d.wals, 0, 0);
    EmptyLog(crc);
  }

  // --------------------------------------------------------------------- a failed flush

  /** After a failed flush the engine still answers right exactly when the lost memtable added nothing. */
  lemma FailedExact(crc: Checksum, s: State)
    requires Good(crc, s) && s.up.Some? && s.up.value.flush.Busy? && s.up.value.flush.failed
    ensures var r := s.up.value;
            View(r) == Written(s.hist)
            <==> forall key :: key in r.flush.layer && key !in r.mem ==> key in r.tables && r.tables[key] == r.flush.layer[key]
  {
    hide Written, UpFiles, Clean, Logs;
    var r := s.up.value;
    HarmlessMaps(r.tables, r.flush.layer, r.mem);
    assert r.tables + map[] == r.tables;
  }

  /** A write acknowledged, then gone from reads once its flush fails, and back after a restart. */
  lemma FailedHides(crc: Checksum) returns (s1: State, s2: State, s3: State, s4: State)
    ensures Next(crc, Fresh, Open(0, 0, []), Opened) && Next(crc, Opened, Batch([First]), s1)
    ensures Next(crc, s1, Freeze, s2) && Next(crc, s2, FlushFail, s3) && Next(crc, s3, Crash, s4)
    ensures Answer(View(s1.up.value), Key) == Some([1]) && Answer(View(s3.up.value), Key) == None
    ensures Recovers(crc, s4.disk, OneLayer(First))
  {
    hide EncodeAll, OpsOf, Written, Recovers, Good, Possible, Orderly, After, View, OneLog;
    OpensEmpty(crc);
    s1 := WriteOne(crc, Opened, First);
    s2, s3, s4 := FlushFailed(crc, s1);
    FailedRun(crc, s1, s2, s3, s4);
  }

  lemma FlushFailed(crc: Checksum, s1: State) returns (s2: State, s3: State, s4: State)
    requires s1.up.Some? && s1.up.value.flush.Idle? && s1.up.value.mem == OneLayer(First) && s1.up.value.tables == map[]
    ensures Next(crc, s1, Freeze, s2) && Next(crc, s2, FlushFail, s3) && Next(crc, s3, Crash, s4)
    ensures s2.up.Some? && s3.up.Some? && s4.up.None? && s4.hist == s1.hist
    ensures Answer(View(s1.up.value), Key) == Some([1]) && Answer(View(s3.up.value), Key) == None
  {
    assert Key in s1.up.value.mem;
    s2 := After(crc, s1, Freeze);
    s3 := After(crc, s2, FlushFail);
    s4 := After(crc, s3, Crash);
  }

  lemma ClosedGood(crc: Checksum, s: State)
    requires Good(crc, s) && s.up.None?
    ensures Recovers(crc, s.disk, Written(s.hist))
  {
  }

  lemma FailedRun(crc: Checksum, s1: State, s2: State, s3: State, s4: State)
    requires Next(crc, Fresh, Open(0, 0, []), Opened) && Next(crc, Opened, Batch([First]), s1)
    requires Next(crc, s1, Freeze, s2) && Next(crc, s2, FlushFail, s3) && Next(crc, s3, Crash, s4)
    requires s4.hist == [Op(Key, [1], false)] && s4.up.None?
    ensures Recovers(crc, s4.disk, OneLayer(First))
  {
    hide Possible, Orderly, After, EncodeAll, Good, Recovers;
    FreshGood(crc);
    StepGood(crc, Fresh, Open(0, 0, []));
    StepGood(crc, Opened, Batch([First]));
    StepGood(crc, s1, Freeze);
    StepGood(crc, s2, FlushFail);
    StepGood(crc, s3, Crash);
    OneRecord(crc, First);
    ClosedGood(crc, s4);
  }

  // -------------------------------------------------------------- a crash inside a flush

  const HalfSteps := [Open(0, 0, []), Batch([First]), Freeze, TableHalf, Crash]

  /**
   * A crash while a flush writes its table.  Everything is still in the files, but the half-written
   * table keeps the directory from ever being opened; `EngineRuns.OpensAgain` says when that is so.
   */
  lemma MidFlush(crc: Checksum)
    ensures exists states: seq<State> ::
              && Run(crc, states, HalfSteps) && OrderlyTo(crc, states, HalfSteps, 5)
              && Recovers(crc, states[5].disk, OneLayer(First))
              && forall wal, flush, recs :: !Possible(crc, states[5], Open(wal, flush, recs))
  {
    hide Possible, Orderly, After, Recovers, OneLog, Good, Opens;
    OpensEmpty(crc);
    var s1 := WriteOne(crc, Opened, First);
    var s2, s3, s4 := HalfFlushed(crc, s1);
    var states := [Fresh, Opened, s1, s2, s3, s4];
    assert Run(crc, states, HalfSteps);
    assert OrderlyTo(crc, states, HalfSteps, 5);
    RunGood(crc, states, HalfSteps, 5);
    ClosedGood(crc, s4);
    OneRecord(crc, First);
  }

  lemma HalfFlushed(crc: Checksum, s1: State) returns (s2: State, s3: State, s4: State)
    requires Next(crc, Opened, Batch([First]), s1) && s1.up.Some? && s1.up.value.flush.Idle? && s1.up.value.nextFlush == 0
    requires s1.up.value.mem == OneLayer(First) && s1.disk.marker == 0
    ensures Next(crc, s1, Freeze, s2) && Next(crc, s2, TableHalf, s3) && Next(crc, s3, Crash, s4)
    ensures s4.up.None? && s4.hist == s1.hist && !Openable(s4.disk)
    ensures forall wal, flush, recs :: !Possible(crc, s4, Open(wal, flush, recs))
  {
    hide EncodeAll, OpsOf, Written;
    assert Key in s1.up.value.mem;
    s2 := After(crc, s1, Freeze);
    s3 := After(crc, s2, TableHalf);
    s4 := After(crc, s3, Crash);
    assert 0 in s4.disk.tables;
  }
}
