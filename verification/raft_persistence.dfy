/**
 * PersistentStorage and Node.Persist as code that writes files: what they write is
 * what module RaftDisk says, and what they read back is what it opens.
 */
module RaftPersistence {
  import opened Bytes
  import opened RaftTypes
  import opened LittleEndian
  import opened Wal
  import opened WalFile
  import opened RaftRecords
  import opened RaftDisk
  import opened RaftNode
  import opened RaftMachine

  // --------------------------------------------------------------- opening

  /** The filtering loops of OpenStorage. */
  method KeepBelow(es: seq<Entry>, i: nat) returns (kept: seq<Entry>)
    ensures kept == RaftRecords.Below(es, i)
  {
    kept := [];
    for j := 0 to |es|
      invariant kept == RaftRecords.Below(es[..j], i)
    {
      assert es[..j + 1][..j] == es[..j];
      if es[j].index < i { kept := kept + [es[j]]; }
    }
    assert es[..|es|] == es;
  }

  method KeepAbove(es: seq<Entry>, i: nat) returns (kept: seq<Entry>)
    ensures kept == Above(es, i)
  {
    kept := [];
    for j := 0 to |es|
      invariant kept == Above(es[..j], i)
    {
      assert es[..j + 1][..j] == es[..j];
      if es[j].index > i { kept := kept + [es[j]]; }
    }
    assert es[..|es|] == es;
  }

  /** One turn of the replay loop. */
  method AbsorbRecord(k: Kept, c: Change) returns (r: Kept)
    ensures r == Absorb(k, c)
  {
    match c
    case HardState(term, vote) => return k.(term := term, vote := vote);
    case LogEntry(e) => return k.(entries := k.entries + [e]);
    case TruncateFrom(i) =>
      var kept := KeepBelow(k.entries, i);
      return k.(entries := kept);
    case NewSnapshot(s) =>
      var kept := KeepAbove(k.entries, s.lastIndex);
      return k.(snapshot := s, entries := kept);
  }

  ghost predicate Largest(recs: seq<Record>, m: nat) {
    (forall i :: 0 <= i < |recs| ==> recs[i].seqNum <= m) && (m == 0 || exists i :: 0 <= i < |recs| && recs[i].seqNum == m)
  }

  /** OpenStorage: null stands for a record that does not decode; new records are numbered after the largest. */
  method OpenStorage(crc: Checksum, file: Log) returns (s: Storage?, d: Durable)
    modifies file
    ensures s == null <==> Open(crc, old(file.bytes)).None?
    ensures s != null ==> fresh(s) && s.crc == crc && s.log == file && d == Open(crc, old(file.bytes)).value && Largest(Records(crc, old(file.bytes)), s.seqNum)
    ensures file.bytes == old(file.bytes)[..ValidLen(crc, old(file.bytes))]
  {
    hide Records, ValidLen, DecodeChange;
    d := Durable(0, 0, [], NoSnapshot);
    var recs, _, _ := file.Replay(crc);
    var k, maxSeq := Blank, 0;
    for i := 0 to |recs|
      invariant Largest(recs[..i], maxSeq)
      invariant Fold(recs[..i]) == Some(k) && file.bytes == old(file.bytes)[..ValidLen(crc, old(file.bytes))]
    {
      assert recs[..i + 1][..i] == recs[..i];
      if recs[i].seqNum > maxSeq { maxSeq := recs[i].seqNum; }
      var c := DecodeChange(recs[i].value);
      if c.None? {
        FoldFails(recs, i);
        return null, d;
      }
      k := AbsorbRecord(k, c.value);
    }
    assert recs[..|recs|] == recs;
    d := Opened(k);
    s := new Storage(crc, file, maxSeq);
  }

  // ---------------------------------------------------------------- writing

  class Storage {
    const crc: Checksum
    var log: Log
    var seqNum: nat

    constructor (crc: Checksum, log: Log, seqNum: nat)
      ensures this.crc == crc && this.log == log && this.seqNum == seqNum
    {
      this.crc, this.log, this.seqNum := crc, log, seqNum;
    }

    /** The loop that turns changes into numbered records. */
    method Number(cs: seq<Change>) returns (recs: seq<Record>)
      modifies this`seqNum
      ensures recs == ToRecords(old(seqNum), cs) && seqNum % TwoTo64 == (old(seqNum) + |cs|) % TwoTo64
    {
      recs := [];
      for i := 0 to |cs|
        invariant recs == ToRecords(old(seqNum), cs[..i]) && seqNum % TwoTo64 == (old(seqNum) + i) % TwoTo64
      {
        NextSeq(seqNum, old(seqNum) + i);
        seqNum := (seqNum + 1) % TwoTo64;
        recs := recs + [Record(seqNum, 0, [], EncodeChange(cs[i]))];
        assert recs == ToRecords(old(seqNum), cs[..i + 1]);
      }
      assert cs[..|cs|] == cs;
    }

    /** Append changes to the file. */
    method Save(cs: seq<Change>)
      requires !log.closed
      modifies this`seqNum, log
      ensures log == old(log) && log.closed == old(log.closed)
      ensures log.bytes == old(log.bytes) + EncodeAll(crc, ToRecords(old(seqNum), cs))
      ensures seqNum % TwoTo64 == (old(seqNum) + |cs|) % TwoTo64
    {
      var recs := Number(cs);
      var ok := log.AppendBatch(crc, recs);
      assert recs == [] ==> EncodeAll(crc, recs) == [];
    }

    method SaveHardState(term: nat, vote: Id)
      requires !log.closed
      modifies this`seqNum, log
      ensures !log.closed && log.bytes == old(log.bytes) + EncodeAll(crc, ToRecords(old(seqNum), [HardState(term, vote)]))
      ensures seqNum % TwoTo64 == (old(seqNum) + 1) % TwoTo64
    {
      Save([HardState(term, vote)]);
    }

    /** SaveEntries: a truncation marker and the entries in one batch; nothing for no entries. */
    method SaveEntries(first: nat, entries: seq<Entry>)
      requires !log.closed
      modifies this`seqNum, log
      ensures !log.closed
      ensures log.bytes == if entries == [] then old(log.bytes)
                           else old(log.bytes) + EncodeAll(crc, ToRecords(old(seqNum), [TruncateFrom(first)] + Logged(entries)))
    {
      if entries == [] { return; }
      Save([TruncateFrom(first)] + Logged(entries));
    }

    /** SaveSnapshot: the state is written to a temporary file, which then takes the place of the old one. */
    method SaveSnapshot(term: nat, vote: Id, snap: Snapshot, surviving: seq<Entry>)
      modifies this`seqNum, this`log, log`closed
      ensures fresh(log) && !log.closed
      ensures log.bytes == EncodeAll(crc, ToRecords(0, [HardState(term, vote), NewSnapshot(snap)] + Logged(surviving)))
    {
      hide EncodeAll, ToRecords;
      var tmp := new Log([]);
      var t := new Storage(crc, tmp, 0);
      EncodeNothing(crc);
      t.SaveHardState(term, vote);
      JoinRecords(crc, 0, t.seqNum, [HardState(term, vote)], [NewSnapshot(snap)]);
      t.Save([NewSnapshot(snap)]);
      assert [HardState(term, vote)] + [NewSnapshot(snap)] == [HardState(term, vote), NewSnapshot(snap)];
      JoinRecords(crc, 0, t.seqNum, [HardState(term, vote), NewSnapshot(snap)], Logged(surviving));
      t.Save(Logged(surviving));
      log.closed := true;
      log, seqNum := tmp, t.seqNum;
    }
  }

  lemma EncodeNothing(crc: Checksum)
    ensures EncodeAll(crc, []) == [] && forall b: Bytes :: [] + b == b
  {
  }

  lemma {:induction false} EncodeConcat(crc: Checksum, a: seq<Record>, b: seq<Record>)
    ensures EncodeAll(crc, a + b) == EncodeAll(crc, a) + EncodeAll(crc, b)
    decreases |a|
  {
    hide Encode;
    if a == [] {
      assert a + b == b;
    } else {
      assert (a + b)[1..] == a[1..] + b;
      EncodeConcat(crc, a[1..], b);
    }
  }

  lemma SeqShift(s: nat, t: nat, k: nat, i: nat)
    requires t % TwoTo64 == (s + k) % TwoTo64
    ensures (t + 1 + i) % TwoTo64 == (s + 1 + (k + i)) % TwoTo64
  {
    ModAdd(t, s + k, 1 + i);
  }

  lemma ModAdd(a: nat, b: nat, c: nat)
    requires a % TwoTo64 == b % TwoTo64
    ensures (a + c) % TwoTo64 == (b + c) % TwoTo64
    decreases c
  {
    if c > 0 {
      ModAdd(a, b, c - 1);
      NextSeq(a + c - 1, b + c - 1);
    }
  }

  /** Two batches written one after the other are one batch of both. */
  lemma JoinRecords(crc: Checksum, s: nat, t: nat, a: seq<Change>, b: seq<Change>)
    requires t % TwoTo64 == (s + |a|) % TwoTo64
    ensures EncodeAll(crc, ToRecords(s, a)) + EncodeAll(crc, ToRecords(t, b)) == EncodeAll(crc, ToRecords(s, a + b))
  {
    hide EncodeAll, EncodeChange;
    EncodeConcat(crc, ToRecords(s, a), ToRecords(t, b));
    forall i | 0 <= i < |a + b|
      ensures (ToRecords(s, a) + ToRecords(t, b))[i] == ToRecords(s, a + b)[i]
    {
      if i >= |a| { SeqShift(s, t, |a|, i - |a|); }
    }
    assert ToRecords(s, a) + ToRecords(t, b) == ToRecords(s, a + b);
  }

  lemma NextSeq(a: nat, b: nat)
    requires a % TwoTo64 == b % TwoTo64
    ensures (a + 1) % TwoTo64 == (b + 1) % TwoTo64
  {
  }

  // ---------------------------------------------------------------- Persist

  /**
   * Node.Persist: writes what Ready reports, then Advance, then hands the messages out.
   */
  method Persist(r: Raft, s: Storage) returns (out: seq<Message>, confirmed: seq<ReadState>, toApply: Option<Snapshot>)
    requires r.Valid() && Base(r.log) <= r.unstableIndex && !s.log.closed
    modifies r, s, s.log
    ensures r.Valid() && r.State() == Advance(old(r.State()))
    ensures !s.log.closed
    ensures s.log.bytes == Persisted(s.crc, old(s.log.bytes), old(s.seqNum), old(r.State()))
    ensures out == old(r.msgs) && confirmed == old(r.readStates) && toApply == old(r.toApply)
  {
    hide EncodeAll, ToRecords, LogOk, EntriesIn, Advance;
    ghost var n := r.State();
    out, confirmed, toApply := r.msgs, r.readStates, r.toApply;
    if r.snapshot.lastIndex > r.stableSnapshotIndex {
      s.SaveSnapshot(r.currentTerm, r.votedFor, r.snapshot, EntriesIn(r.log, r.snapshot.lastIndex, LastIndex(r.log)));
      assert SnapshotPending(n);
    } else {
      PersistAppended(r, s);
    }
    r.AdvanceReady();
  }

  /** The path of Persist that appends records. */
  method PersistAppended(r: Raft, s: Storage)
    requires r.Valid() && Base(r.log) <= r.unstableIndex && !s.log.closed && !SnapshotPending(r.State())
    modifies s`seqNum, s.log
    ensures !s.log.closed && s.log == old(s.log)
    ensures s.log.bytes == Persisted(s.crc, old(s.log.bytes), old(s.seqNum), r.State())
  {
    hide EncodeAll, ToRecords, LogOk, HardStateChange, EntryChanges, Unstable, SnapshotPending;
    ghost var n, before, first := r.State(), s.log.bytes, s.seqNum;
    ghost var hs, es := HardStateChange(n), EntryChanges(n);
    PersistHardState(r, s);
    ghost var second := s.seqNum;
    PersistEntries(r, s);
    JoinRecords(s.crc, first, second, hs, es);
  }

  method PersistHardState(r: Raft, s: Storage)
    requires !s.log.closed
    modifies s`seqNum, s.log
    ensures !s.log.closed && s.log == old(s.log)
    ensures s.log.bytes == old(s.log.bytes) + EncodeAll(s.crc, ToRecords(old(s.seqNum), HardStateChange(r.State())))
    ensures s.seqNum % TwoTo64 == (old(s.seqNum) + |HardStateChange(r.State())|) % TwoTo64
  {
    hide EncodeAll, ToRecords;
    EncodeNothing(s.crc);
    NoRecords(s.seqNum);
    if r.currentTerm != r.stableTerm || r.votedFor != r.stableVote { s.SaveHardState(r.currentTerm, r.votedFor); }
  }

  method PersistEntries(r: Raft, s: Storage)
    requires r.Valid() && Base(r.log) <= r.unstableIndex && !s.log.closed
    modifies s`seqNum, s.log
    ensures !s.log.closed && s.log == old(s.log)
    ensures s.log.bytes == old(s.log.bytes) + EncodeAll(s.crc, ToRecords(old(s.seqNum), EntryChanges(r.State())))
  {
    hide EncodeAll, ToRecords, LogOk;
    EncodeNothing(s.crc);
    NoRecords(s.seqNum);
    if LastIndex(r.log) >= r.unstableIndex { s.SaveEntries(r.unstableIndex, r.log[r.unstableIndex - Base(r.log)..]); }
  }

  lemma NoRecords(seqNum: nat)
    ensures ToRecords(seqNum, []) == []
  {
  }

  /**
   * OpenNode: a node seeded with what its storage holds; null stands for an invalid configuration
   * or a record that does not decode.
   */
  method OpenNode(crc: Checksum, id: Id, peers: seq<Id>, file: Log) returns (r: Raft?, s: Storage?)
    requires Open(crc, file.bytes).Some? ==> LogOk(Open(crc, file.bytes).value.log)
    modifies file
    ensures r != null <==> ConfigOk(id, peers) && Open(crc, old(file.bytes)).Some?
    ensures r != null ==> r.Valid() && r.State() == Restarted(id, peers, Open(crc, old(file.bytes)).value)
    ensures r != null ==> s != null && s.crc == crc && s.log == file
  {
    hide Open, ValidLen, LogOk;
    var d;
    s, d := OpenStorage(crc, file);
    if s == null { return null, null; }
    r := NewRaft(id, peers);
    if r != null { r.Restore(d); }
  }
}
