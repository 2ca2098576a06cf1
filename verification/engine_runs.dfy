/** Whole runs of the engine. */
module EngineRuns {
  import opened Bytes
  import opened RaftTypes
  import opened Wal
  import opened Stores
  import opened EngineSteps
  import opened EngineInvariant

  const Fresh := State(Disk(map[], map[], 0), None, [])

  /** A run from an empty directory, each step one the code may take. */
  ghost predicate Run(crc: Checksum, states: seq<State>, steps: seq<Step>) {
    && |states| == |steps| + 1 && states[0] == Fresh
    && forall i :: 0 <= i < |steps| ==> Possible(crc, states[i], steps[i]) && states[i + 1] == After(crc, states[i], steps[i])
  }

  ghost predicate OrderlyTo(crc: Checksum, states: seq<State>, steps: seq<Step>, n: nat)
    requires Run(crc, states, steps) && n <= |steps|
  {
    forall i :: 0 <= i < n ==> Orderly(crc, states[i], steps[i])
  }

  /** What the store should hold, from the steps alone: whole batches, the part of a batch before a cut, and snapshots. */
  function Story(crc: Checksum, steps: seq<Step>): seq<Op> {
    if steps == [] then []
    else
      var before := Story(crc, steps[..|steps| - 1]);
      match steps[|steps| - 1]
      case Batch(recs) => before + OpsOf(recs)
      case BatchCrash(recs, cut) => before + OpsOf(recs[..Whole(crc, recs, cut)])
      case Restore(items) => ItemOps(items)
      case _ => before
  }

  lemma FreshGood(crc: Checksum)
    ensures Good(crc, Fresh)
  {
    hide Tables, Logs;
    forall hi: nat
      ensures Recovered(crc, Fresh.disk, hi) == map[]
    {
      LogsNone(crc, map[], 0, hi);
      TablesNone(map[], 0, hi);
    }
  }

  lemma {:induction false} RunGood(crc: Checksum, states: seq<State>, steps: seq<Step>, i: nat)
    requires Run(crc, states, steps) && i <= |steps| && OrderlyTo(crc, states, steps, i)
    ensures Good(crc, states[i])
  {
    hide Good, Possible, After, Orderly;
    if i == 0 {
      FreshGood(crc);
    } else {
      RunGood(crc, states, steps, i - 1);
      StepGood(crc, states[i - 1], steps[i - 1]);
    }
  }

  lemma {:induction false} RunStory(crc: Checksum, states: seq<State>, steps: seq<Step>, i: nat)
    requires Run(crc, states, steps) && i <= |steps|
    ensures states[i].hist == Story(crc, steps[..i])
  {
    hide Opens, OpsOf, EncodeAll;
    if i > 0 {
      RunStory(crc, states, steps, i - 1);
      assert steps[..i][..i - 1] == steps[..i - 1];
    }
  }

  // ------------------------------------------------------------------------ main results

  /** The last operation on a key decides its answer. */
  lemma {:induction false} LastWins(ops: seq<Op>, key: Bytes, v: Bytes)
    ensures Answer(Written(ops), key) == Some(v)
            <==> exists i :: 0 <= i < |ops| && ops[i] == Op(key, v, false) && forall j :: i < j < |ops| ==> ops[j].key != key
  {
    if i :| 0 <= i < |ops| && ops[i] == Op(key, v, false) && forall j :: i < j < |ops| ==> ops[j].key != key {
      WrittenAt(ops, i);
    }
    if Answer(Written(ops), key) == Some(v) { LastOne(ops, key); }
  }

  lemma {:induction false} LastOne(ops: seq<Op>, key: Bytes)
    requires key in Written(ops)
    ensures exists i :: 0 <= i < |ops| && ops[i].key == key && EntryOf(ops[i]) == Written(ops)[key] && forall j :: i < j < |ops| ==> ops[j].key != key
    decreases |ops|
  {
    var n := |ops| - 1;
    if ops[n].key == key {
      assert EntryOf(ops[n]) == Written(ops)[key];
    } else {
      LastOne(ops[..n], key);
      var i :| 0 <= i < n && ops[..n][i].key == key && EntryOf(ops[..n][i]) == Written(ops[..n])[key] && forall j :: i < j < n ==> ops[..n][j].key != key;
      forall j | i < j < |ops|
        ensures ops[j].key != key
      {
        if j < n { assert ops[..n][j] == ops[j]; }
      }
      assert ops[i] == ops[..n][i];
    }
  }

  /**
   * Reads refine a map: while no flush has failed, an open engine answers from
   * exactly the operations of its story, whatever flush is under way.
   */
  lemma ReadsRefine(crc: Checksum, states: seq<State>, steps: seq<Step>, i: nat)
    requires Run(crc, states, steps) && i <= |steps| && OrderlyTo(crc, states, steps, i)
    requires states[i].up.Some? && (states[i].up.value.flush.Busy? ==> !states[i].up.value.flush.failed)
    ensures View(states[i].up.value) == Written(Story(crc, steps[..i]))
  {
    hide UpFiles, Clean, Possible, After, Orderly;
    RunGood(crc, states, steps, i);
    RunStory(crc, states, steps, i);
  }

  /** Recovery: stopped after any step, the files give back exactly the story. */
  lemma Recovery(crc: Checksum, states: seq<State>, steps: seq<Step>, i: nat, hi: nat)
    requires Run(crc, states, steps) && i <= |steps| && OrderlyTo(crc, states, steps, i) && Bounds(states[i].disk, hi)
    ensures Recovered(crc, states[i].disk, hi) == Written(Story(crc, steps[..i]))
  {
    hide UpFiles, UpHolds, Clean, Possible, After, Orderly, Recovered;
    RunGood(crc, states, steps, i);
    RunStory(crc, states, steps, i);
    if states[i].up.Some? { UpRecovers(crc, states[i].disk, states[i].up.value, Written(states[i].hist)); }
  }

  predicate NoRestore(steps: seq<Step>) { forall i :: 0 <= i < |steps| ==> !steps[i].Restore? }

  lemma {:induction false} StoryGrows(crc: Checksum, steps: seq<Step>, more: seq<Step>)
    requires NoRestore(more)
    ensures Story(crc, steps) <= Story(crc, steps + more)
    decreases |more|
  {
    hide OpsOf;
    if more == [] {
      assert steps + more == steps;
    } else {
      var m := |more| - 1;
      assert (steps + more)[..|steps + more| - 1] == steps + more[..m];
      assert NoRestore(more[..m]);
      StoryGrows(crc, steps, more[..m]);
      assert (steps + more)[|steps + more| - 1] == more[m];
    }
  }

  /** An acknowledged batch is never lost: it stands in the story, whole and in order, until a snapshot replaces the store. */
  lemma Acknowledged(crc: Checksum, states: seq<State>, steps: seq<Step>, i: nat, j: nat, hi: nat)
    requires Run(crc, states, steps) && i < j <= |steps| && OrderlyTo(crc, states, steps, j) && Bounds(states[j].disk, hi)
    requires steps[i].Batch? && NoRestore(steps[i + 1..j])
    ensures Story(crc, steps[..i]) + OpsOf(steps[i].recs) <= Story(crc, steps[..j])
    ensures Recovered(crc, states[j].disk, hi) == Written(Story(crc, steps[..j]))
  {
    hide Possible, After, Orderly, OpsOf, Recovered;
    Recovery(crc, states, steps, j, hi);
    StoryGrows(crc, steps[..i + 1], steps[i + 1..j]);
    assert steps[..i + 1] + steps[i + 1..j] == steps[..j];
    assert steps[..i + 1][..i] == steps[..i];
  }

  /**
   * Once a snapshot's marker is in place, the store is that snapshot and what came
   * later, over any later flushes, crashes and reopenings, whichever of the files
   * it replaced are still there.
   */
  lemma RestoreHolds(crc: Checksum, states: seq<State>, steps: seq<Step>, i: nat, j: nat, hi: nat)
    requires Run(crc, states, steps) && i < j <= |steps| && OrderlyTo(crc, states, steps, j) && Bounds(states[j].disk, hi)
    requires steps[i].Restore? && NoRestore(steps[i + 1..j])
    ensures var story := Story(crc, steps[..j]);
            ItemOps(steps[i].items) <= story && Recovered(crc, states[j].disk, hi) == LayerOf(steps[i].items) + Written(story[|steps[i].items|..])
  {
    hide Possible, After, Orderly, OpsOf, Recovered, Written, Story;
    Recovery(crc, states, steps, j, hi);
    StoryGrows(crc, steps[..i + 1], steps[i + 1..j]);
    assert steps[..i + 1] + steps[i + 1..j] == steps[..j];
    RestoredStory(crc, steps, i);
    WrittenRest(ItemOps(steps[i].items), Story(crc, steps[..j]));
  }

  lemma RestoredStory(crc: Checksum, steps: seq<Step>, i: nat)
    requires i < |steps| && steps[i].Restore?
    ensures Story(crc, steps[..i + 1]) == ItemOps(steps[i].items)
  {
  }

  lemma WrittenRest(ops: seq<Op>, story: seq<Op>)
    requires ops <= story
    ensures Written(story) == Written(ops) + Written(story[|ops|..])
  {
    hide Written;
    assert story == ops + story[|ops|..];
    WrittenAppend(ops, story[|ops|..]);
  }

  /** Files under the marker count for nothing, whichever of them are left. */
  lemma Superseded(crc: Checksum, d: Disk, e: Disk, hi: nat)
    requires d.marker == e.marker
    requires forall n :: d.marker <= n ==> (n in d.wals <==> n in e.wals) && (n in d.tables <==> n in e.tables)
    requires forall n :: d.marker <= n ==> (n in d.wals ==> d.wals[n] == e.wals[n]) && (n in d.tables ==> d.tables[n] == e.tables[n])
    ensures Recovered(crc, d, hi) == Recovered(crc, e, hi) && (Openable(d) <==> Openable(e))
  {
    hide Tables, Logs;
    LogsBelow(crc, d.wals, e.wals, d.marker, hi);
    TablesBelow(d.tables, e.tables, d.marker, hi);
  }

  // --------------------------------------------------------------------- opening again

  /** The table that the flush under way, or the one that failed, has begun and not finished. */
  predicate HalfFlush(s: State) {
    && s.up.Some? && s.up.value.flush.Busy?
    && s.up.value.flush.number in s.disk.tables && s.disk.tables[s.up.value.flush.number].None?
  }

  /** A table that a failed restore has left behind. */
  ghost predicate HalfRestore(s: State) {
    s.up.Some? && exists n :: n in s.disk.tables && s.up.value.nextFlush <= n
  }

  /** No other live table is half-written. */
  ghost predicate Tidy(s: State) {
    && Numbered(s.disk)
    && (s.up.Some? ==>
          var d, r := s.disk, s.up.value;
          && d.marker <= FirstTable(r) && d.marker <= r.wal < r.nextWal && r.wal in d.wals && (r.flush.Busy? ==> r.nextFlush == r.flush.number + 1)
          && (forall n :: n in d.tables && d.tables[n].Some? ==> n < r.nextFlush)
          && (forall n :: n in d.tables && d.marker <= n && d.tables[n].None? ==> (r.flush.Busy? && n == r.flush.number) || r.nextFlush <= n))
  }

  lemma OpenTidy(crc: Checksum, s: State, wal: nat, flush: nat, recs: seq<Record>)
    requires Tidy(s) && Possible(crc, s, Open(wal, flush, recs))
    ensures Tidy(After(crc, s, Open(wal, flush, recs)))
  {
    hide Logs, Tables, EncodeAll, Relogs;
    NextLive(s.disk, wal, flush);
    TableBelow(s.disk, flush);
    assert wal in After(crc, s, Open(wal, flush, recs)).disk.wals;
  }

  lemma ClosedTidy(crc: Checksum, s: State, a: Step)
    requires Tidy(s) && Possible(crc, s, a) && After(crc, s, a).up.None?
    ensures Tidy(After(crc, s, a))
  {
    hide Logs, Tables, EncodeAll, Relogs, ValidLen, OpsOf;
    var d, e := s.disk, After(crc, s, a).disk;
    if a.OpenCrash? {
      NextLive(d, a.wal, a.flush);
      assert a.wal in e.wals;
    } else {
      NumberedKeeps(d, e);
    }
  }

  lemma StepTidy(crc: Checksum, s: State, a: Step)
    requires Tidy(s) && Possible(crc, s, a)
    ensures Tidy(After(crc, s, a))
  {
    hide Logs, Tables, EncodeAll, Relogs, ValidLen, OpsOf, Written, LayerOf, Opens;
    if After(crc, s, a).up.None? {
      ClosedTidy(crc, s, a);
    } else if a.Open? {
      OpenTidy(crc, s, a.wal, a.flush, a.recs);
    } else {
      OpenStays(crc, s, a);
    }
  }

  lemma OpenStays(crc: Checksum, s: State, a: Step)
    requires Tidy(s) && Possible(crc, s, a) && s.up.Some? && After(crc, s, a).up.Some?
    ensures Tidy(After(crc, s, a))
  {
    hide Logs, Tables, EncodeAll, OpsOf, Written, LayerOf;
    var t := After(crc, s, a);
    assert t.up.value.wal in t.disk.wals;
    match a
    case Batch(recs) => NumberedKeeps(s.disk, t.disk);
    case Freeze => NumberedKeeps(s.disk, t.disk);
    case TableHalf => NumberedKeeps(s.disk, t.disk);
    case TableDone(items) => NumberedKeeps(s.disk, t.disk);
    case Restore(items) => assert t.disk.marker in t.disk.tables;
    case RestoreFail => NumberedKeeps(s.disk, t.disk);
    case _ =>
  }

  lemma {:induction false} RunTidy(crc: Checksum, states: seq<State>, steps: seq<Step>, i: nat)
    requires Run(crc, states, steps) && i <= |steps|
    ensures Tidy(states[i])
  {
    hide Possible, After;
    if i > 0 {
      RunTidy(crc, states, steps, i - 1);
      StepTidy(crc, states[i - 1], steps[i - 1]);
    }
  }

  /**
   * At any point of any run, the directory of an open engine could be opened again exactly when no flush
   * is part-way through writing its table and no failed restore has left one.
   */
  lemma OpensAgain(crc: Checksum, states: seq<State>, steps: seq<Step>, i: nat)
    requires Run(crc, states, steps) && i <= |steps| && states[i].up.Some?
    ensures Openable(states[i].disk) <==> !HalfFlush(states[i]) && !HalfRestore(states[i])
  {
    hide Possible, After;
    RunTidy(crc, states, steps, i);
    var s := states[i];
    if HalfRestore(s) {
      var n :| n in s.disk.tables && s.up.value.nextFlush <= n;
      assert s.disk.tables[n].None?;
    }
  }

  /** While the engine is down, no table comes or goes. */
  lemma {:induction false} ClosedTables(crc: Checksum, states: seq<State>, steps: seq<Step>, k: nat, i: nat)
    requires Run(crc, states, steps) && k <= i <= |steps| && forall j :: k <= j <= i ==> states[j].up.None?
    ensures states[i].disk.tables == states[k].disk.tables && states[i].disk.marker == states[k].disk.marker
  {
    hide Opens, ValidLen, EncodeAll, Logs, Tables;
    if k < i { ClosedTables(crc, states, steps, k, i - 1); }
  }

  /** The step that took the engine down leaves a half-written table: one that was there, or its own. */
  ghost predicate LeavesHalf(s: State, a: Step)
    requires s.up.Some?
  {
    || HalfFlush(s)
    || match a
       case RestoreCrash(_, whole, _) => !whole || exists n :: n in s.disk.tables && s.up.value.nextFlush <= n && n != RestoreNumber(s.up.value)
       case _ => HalfRestore(s)
  }

  lemma DownOpenable(crc: Checksum, s: State, a: Step)
    requires Tidy(s) && s.up.Some? && Possible(crc, s, a) && After(crc, s, a).up.None?
    ensures Openable(After(crc, s, a).disk) <==> !LeavesHalf(s, a)
  {
    hide EncodeAll, Logs, Tables, Whole, OpsOf;
    var d, e, r := s.disk, After(crc, s, a).disk, s.up.value;
    if a.RestoreCrash? {
      var n := RestoreNumber(r);
      assert e.tables[n] == if a.whole then Some(a.items) else None;
      forall m | m != n ensures m in e.tables <==> m in d.tables { }
      if m :| m in d.tables && r.nextFlush <= m && m != n { assert e.tables[m].None?; }
      if HalfFlush(s) { assert e.tables[r.flush.number].None?; }
    } else {
      assert e.tables == d.tables && e.marker == d.marker;
      if HalfRestore(s) {
        var m :| m in d.tables && r.nextFlush <= m;
        assert d.tables[m].None?;
      }
    }
  }

  /**
   * A stopped engine's directory can be opened again exactly when it went down with no table half-written:
   * not by its flush, not by an earlier restore that failed, and not by the restore it was in.
   */
  lemma OpensAfterStop(crc: Checksum, states: seq<State>, steps: seq<Step>, k: nat, i: nat)
    requires Run(crc, states, steps) && k < i <= |steps| && states[k].up.Some? && forall j :: k < j <= i ==> states[j].up.None?
    ensures Openable(states[i].disk) <==> !LeavesHalf(states[k], steps[k])
  {
    hide Possible, After, LeavesHalf;
    RunTidy(crc, states, steps, k);
    ClosedTables(crc, states, steps, k + 1, i);
    DownOpenable(crc, states[k], steps[k]);
  }

  /** One that was never open can. */
  lemma OpensAtFirst(crc: Checksum, states: seq<State>, steps: seq<Step>, i: nat)
    requires Run(crc, states, steps) && i <= |steps| && forall j :: 0 <= j <= i ==> states[j].up.None?
    ensures Openable(states[i].disk)
  {
    hide Possible, After;
    ClosedTables(crc, states, steps, 0, i);
  }

  // -------------------------------------------------------------------- table numbers

  /** The tables a step opens for reading. */
  ghost function OpenedBy(s: State, a: Step): set<nat> {
    match a
    case Open(_, flush, _) => set n | s.disk.marker <= n < flush && n in s.disk.tables
    case Install => if s.up.Some? && s.up.value.flush.Busy? then {s.up.value.flush.number} else {}
    case Restore(_) => if s.up.Some? then {RestoreNumber(s.up.value)} else {}
    case _ => {}
  }

  /** The tables a step writes. */
  function WrittenBy(s: State, a: Step): set<nat> {
    if s.up.None? then {}
    else if (a.TableHalf? || a.TableDone?) && s.up.value.flush.Busy? then {s.up.value.flush.number}
    else if a.Restore? || a.RestoreCrash? || a.RestoreFail? then {RestoreNumber(s.up.value)}
    else {}
  }

  lemma OpenedStep(crc: Checksum, s: State, a: Step, x: nat)
    requires Tidy(s) && Possible(crc, s, a) && After(crc, s, a).up.Some? && (x in OpenedBy(s, a) || (s.up.Some? && x < FirstTable(s.up.value)))
    ensures x < FirstTable(After(crc, s, a).up.value)
  {
    hide Logs, Tables, EncodeAll, OpsOf, Written, LayerOf, Opens, Numbered;
  }

  lemma {:induction false} OpenedBelow(crc: Checksum, states: seq<State>, steps: seq<Step>, i: nat, j: nat, x: nat)
    requires Run(crc, states, steps) && i < j <= |steps| && x in OpenedBy(states[i], steps[i]) && forall k :: i < k <= j ==> states[k].up.Some?
    ensures x < FirstTable(states[j].up.value)
  {
    hide Run, Possible, After, Tidy, OpenedBy;
    StepThere(crc, states, steps, j - 1);
    if i < j - 1 { OpenedBelow(crc, states, steps, i, j - 1, x); }
    RunTidy(crc, states, steps, j - 1);
    assert states[j].up.Some?;
    OpenedStep(crc, states[j - 1], steps[j - 1], x);
  }

  /**
   * While an engine is up, every table it writes or opens has a number above all those it has opened
   * before: no open table's file is written again, and no cached block is ever of an earlier file of the
   * same name.
   */
  lemma NumbersRise(crc: Checksum, states: seq<State>, steps: seq<Step>, i: nat, j: nat, x: nat, y: nat)
    requires Run(crc, states, steps) && i < j < |steps| && x in OpenedBy(states[i], steps[i]) && forall k :: i < k <= j ==> states[k].up.Some?
    requires y in OpenedBy(states[j], steps[j]) + WrittenBy(states[j], steps[j])
    ensures x < y
  {
    hide Run, After, Opens, Logs, Tables, EncodeAll, Numbered;
    StepThere(crc, states, steps, j);
    OpenedBelow(crc, states, steps, i, j, x);
    RunTidy(crc, states, steps, j);
  }

  lemma StepThere(crc: Checksum, states: seq<State>, steps: seq<Step>, j: nat)
    requires Run(crc, states, steps) && j < |steps|
    ensures |states| == |steps| + 1 && Possible(crc, states[j], steps[j]) && states[j + 1] == After(crc, states[j], steps[j])
  {
    hide Possible, After;
  }
}
