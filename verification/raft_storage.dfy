/**
 * Raft's durable state on a write-ahead log (raft/storage.go): the four record
 * shapes, and what replaying them rebuilds.
 */
module RaftRecords {
  import opened Bytes
  import opened RaftTypes
  import opened LittleEndian

  datatype Change =
    | HardState(term: nat, vote: Id)
    | LogEntry(entry: Entry)
    | TruncateFrom(index: nat)
    | NewSnapshot(snap: Snapshot)

  /** What the fixed-width fields can hold, record framing included. */
  predicate ChangeFits(c: Change) {
    match c
    case HardState(term, vote) => term < TwoTo64 && vote < TwoTo64
    case LogEntry(e) => e.term < TwoTo64 && e.index < TwoTo64 && |e.data| + 38 < TwoTo32
    case TruncateFrom(i) => i < TwoTo64
    case NewSnapshot(s) => s.lastIndex < TwoTo64 && s.lastTerm < TwoTo64 && |s.data| + 38 < TwoTo32
  }

  /** Two 64-bit numbers and counted bytes: the layout entries and snapshots share. */
  function Counted(a: nat, b: nat, data: Bytes): (r: Bytes)
    ensures |r| == 20 + |data|
  {
    Put(8, a) + Put(8, b) + Put(4, |data|) + data
  }

  function EncodeChange(c: Change): Bytes {
    match c
    case HardState(term, vote) => [0] + (Put(8, term) + Put(8, vote))
    case LogEntry(e) => [1] + Counted(e.term, e.index, e.data)
    case TruncateFrom(i) => [2] + Put(8, i)
    case NewSnapshot(s) => [3] + Counted(s.lastIndex, s.lastTerm, s.data)
  }

  function DecodeCounted(p: Bytes): Option<(nat, nat, Bytes)> {
    if |p| < 20 then None
    else
      var n := Get(p[16..20]);
      if (|p| - 20) % TwoTo32 != n then None else Some((Get(p[0..8]), Get(p[8..16]), p[20..20 + n]))
  }

  /** decodeRecord and the payload decoders; None stands for their errors. */
  function DecodeChange(v: Bytes): Option<Change> {
    if |v| < 1 then None
    else
      var p := v[1..];
      if v[0] == 0 then if |p| != 16 then None else Some(HardState(Get(p[0..8]), Get(p[8..16])))
      else if v[0] == 1 then
        (match DecodeCounted(p) case None => None case Some((t, i, d)) => Some(LogEntry(Entry(t, i, d))))
      else if v[0] == 2 then if |p| != 8 then None else Some(TruncateFrom(Get(p)))
      else if v[0] == 3 then
        (match DecodeCounted(p) case None => None case Some((i, t, d)) => Some(NewSnapshot(Snapshot(i, t, d))))
      else None
  }

  lemma DecodeCountedBack(a: nat, b: nat, data: Bytes)
    requires a < TwoTo64 && b < TwoTo64 && |data| < TwoTo32
    ensures DecodeCounted(Counted(a, b, data)) == Some((a, b, data))
  {
    hide Put, Get;
    var p := Counted(a, b, data);
    assert p[0..8] == Put(8, a) && p[8..16] == Put(8, b) && p[16..20] == Put(4, |data|) && p[20..20 + |data|] == data;
    GetPut64(a);
    GetPut64(b);
    GetPut32(|data|);
  }

  lemma DecodeBack(c: Change)
    requires ChangeFits(c)
    ensures DecodeChange(EncodeChange(c)) == Some(c)
  {
    hide Put, Get, Counted, DecodeCounted;
    var v := EncodeChange(c);
    match c
    case HardState(term, vote) =>
      assert v[1..] == Put(8, term) + Put(8, vote);
      assert v[1..][0..8] == Put(8, term) && v[1..][8..16] == Put(8, vote);
      GetPut64(term);
      GetPut64(vote);
    case LogEntry(e) =>
      assert v[1..] == Counted(e.term, e.index, e.data);
      DecodeCountedBack(e.term, e.index, e.data);
    case TruncateFrom(i) =>
      assert v[1..] == Put(8, i);
      GetPut64(i);
    case NewSnapshot(s) =>
      assert v[1..] == Counted(s.lastIndex, s.lastTerm, s.data);
      DecodeCountedBack(s.lastIndex, s.lastTerm, s.data);
  }

  predicate Narrow(c: Change) {
    match c
    case HardState(term, vote) => term < TwoTo64 && vote < TwoTo64
    case LogEntry(e) => e.term < TwoTo64 && e.index < TwoTo64
    case TruncateFrom(i) => i < TwoTo64
    case NewSnapshot(s) => s.lastIndex < TwoTo64 && s.lastTerm < TwoTo64
  }

  lemma CountedOnly(p: Bytes)
    requires |p| < TwoTo32 && DecodeCounted(p).Some?
    ensures var (a, b, data) := DecodeCounted(p).value; p == Counted(a, b, data) && a < TwoTo64 && b < TwoTo64
  {
    hide Put, Get;
    PutGet64(p[0..8]);
    PutGet64(p[8..16]);
    PutGet32(p[16..20]);
    assert p == p[0..8] + p[8..16] + p[16..20] + p[20..];
  }

  /** A record's value decodes to a change exactly when it is that change's encoding. */
  lemma ChangeExact(v: Bytes, c: Change)
    requires |v| + 17 < TwoTo32
    ensures DecodeChange(v) == Some(c) <==> Narrow(c) && v == EncodeChange(c)
  {
    hide Put, Get, Counted, DecodeCounted;
    if Narrow(c) && v == EncodeChange(c) { DecodeBack(c); }
    if DecodeChange(v) == Some(c) {
      assert v == [v[0]] + v[1..];
      match c
      case HardState(_, _) =>
        PutGet64(v[1..][0..8]);
        PutGet64(v[1..][8..16]);
        assert v[1..] == v[1..][0..8] + v[1..][8..16];
      case LogEntry(_) => CountedOnly(v[1..]);
      case TruncateFrom(_) => PutGet64(v[1..]);
      case NewSnapshot(_) => CountedOnly(v[1..]);
    }
  }

  // ----------------------------------------------------------------- what replay keeps

  /** The term, vote, entries past the sentinel and snapshot that replay has put together. */
  datatype Kept = Kept(term: nat, vote: Id, entries: seq<Entry>, snapshot: Snapshot)

  const Blank := Kept(0, 0, [], NoSnapshot)

  function Below(es: seq<Entry>, i: nat): seq<Entry> {
    if es == [] then []
    else if es[|es| - 1].index < i then Below(es[..|es| - 1], i) + [es[|es| - 1]] else Below(es[..|es| - 1], i)
  }

  function Above(es: seq<Entry>, i: nat): seq<Entry> {
    if es == [] then []
    else if es[|es| - 1].index > i then Above(es[..|es| - 1], i) + [es[|es| - 1]] else Above(es[..|es| - 1], i)
  }

  function Absorb(k: Kept, c: Change): Kept {
    match c
    case HardState(term, vote) => k.(term := term, vote := vote)
    case LogEntry(e) => k.(entries := k.entries + [e])
    case TruncateFrom(i) => k.(entries := Below(k.entries, i))
    case NewSnapshot(s) => k.(snapshot := s, entries := Above(k.entries, s.lastIndex))
  }

  function AbsorbAll(k: Kept, cs: seq<Change>): Kept {
    if cs == [] then k else Absorb(AbsorbAll(k, cs[..|cs| - 1]), cs[|cs| - 1])
  }

  function Sentinel(s: Snapshot): Entry {
    if s.lastIndex > 0 then Entry(s.lastTerm, s.lastIndex, []) else Entry(0, 0, [])
  }

  function Opened(k: Kept): Durable { Durable(k.term, k.vote, [Sentinel(k.snapshot)] + k.entries, k.snapshot) }

  lemma {:induction false} AbsorbSplit(k: Kept, a: seq<Change>, b: seq<Change>)
    ensures AbsorbAll(k, a + b) == AbsorbAll(AbsorbAll(k, a), b)
    decreases |b|
  {
    if b == [] {
      assert a + b == a;
    } else {
      assert (a + b)[..|a + b| - 1] == a + b[..|b| - 1];
      AbsorbSplit(k, a, b[..|b| - 1]);
    }
  }

  function Logged(es: seq<Entry>): (cs: seq<Change>)
    ensures |cs| == |es| && forall i :: 0 <= i < |cs| ==> cs[i] == LogEntry(es[i])
  {
    seq(|es|, i requires 0 <= i < |es| => LogEntry(es[i]))
  }

  lemma {:induction false} AbsorbLogged(k: Kept, es: seq<Entry>)
    ensures AbsorbAll(k, Logged(es)) == k.(entries := k.entries + es)
    decreases |es|
  {
    if es != [] {
      var init := es[..|es| - 1];
      AbsorbLogged(k, init);
      assert Logged(es)[..|es| - 1] == Logged(init);
      assert k.entries + es == k.entries + init + [es[|es| - 1]];
    } else {
      assert k.entries + es == k.entries;
    }
  }

  lemma {:induction false} BelowIs(es: seq<Entry>, first: nat, i: nat)
    requires forall j :: 0 <= j < |es| ==> es[j].index == first + j
    requires first <= i
    ensures Below(es, i) == if i - first >= |es| then es else es[..i - first]
  {
    if es != [] { BelowIs(es[..|es| - 1], first, i); }
  }

  lemma AboveCases(es: seq<Entry>, i: nat)
    ensures es == [] ==> Above(es, i) == []
    ensures es != [] ==> Above(es, i) == Above(es[..|es| - 1], i) + if es[|es| - 1].index > i then [es[|es| - 1]] else []
  {
  }

  lemma {:induction false} AboveIs(es: seq<Entry>, first: nat, i: nat)
    requires forall j :: 0 <= j < |es| ==> es[j].index == first + j
    ensures Above(es, i) == if i < first then es else if i - first + 1 >= |es| then [] else es[i - first + 1..]
  {
    hide Above;
    AboveCases(es, i);
    if es != [] {
      var init, last := es[..|es| - 1], es[|es| - 1];
      AboveIs(init, first, i);
      if i < first {
        assert es == init + [last];
      } else if i < last.index {
        assert es[i - first + 1..] == init[i - first + 1..] + [last];
      }
    }
  }
}

/** What Persist writes, and what OpenStorage makes of it after any crash. */
module RaftDisk {
  import opened Bytes
  import opened RaftTypes
  import opened LittleEndian
  import opened Wal
  import opened RaftRecords
  import opened RaftNode
  import opened RaftStable

  // ----------------------------------------------------------------- opening

  /** The fold of OpenStorage over the records; None stands for a decoding error. */
  function Fold(recs: seq<Record>): Option<Kept> {
    if recs == [] then Some(Blank)
    else
      match Fold(recs[..|recs| - 1])
      case None => None
      case Some(k) =>
        match DecodeChange(recs[|recs| - 1].value)
        case None => None
        case Some(c) => Some(Absorb(k, c))
  }

  function Open(crc: Checksum, b: Bytes): Option<Durable> {
    match Fold(Records(crc, b))
    case None => None
    case Some(k) => Some(Opened(k))
  }

  /** The file holds exactly this state, with no torn tail. */
  ghost predicate Stores(crc: Checksum, b: Bytes, d: Durable) {
    ValidLen(crc, b) == |b| && Open(crc, b) == Some(d)
  }

  // ----------------------------------------------------------------- writing

  /** The records of some changes, numbered from seqNum + 1 on 64 bits. */
  function ToRecords(seqNum: nat, cs: seq<Change>): (recs: seq<Record>)
    ensures |recs| == |cs|
    ensures forall i :: 0 <= i < |cs| ==> recs[i] == Record((seqNum + 1 + i) % TwoTo64, 0, [], EncodeChange(cs[i]))
  {
    seq(|cs|, i requires 0 <= i < |cs| => Record((seqNum + 1 + i) % TwoTo64, 0, [], EncodeChange(cs[i])))
  }

  /** Ready's HardState is reported only when term or vote changed. */
  function HardStateChange(n: Node): seq<Change> {
    if n.currentTerm != n.stableTerm || n.votedFor != n.stableVote then [HardState(n.currentTerm, n.votedFor)] else []
  }

  /** SaveEntries: a truncation marker, then the entries. */
  function EntryChanges(n: Node): seq<Change>
    requires LogOk(n.log)
  {
    if Unstable(n) == [] then [] else [TruncateFrom(n.unstableIndex)] + Logged(Unstable(n))
  }

  /** SaveSnapshot: the whole state anew. */
  function SnapshotChanges(n: Node): seq<Change>
    requires LogOk(n.log)
  {
    [HardState(n.currentTerm, n.votedFor), NewSnapshot(n.snapshot)] + Logged(EntriesIn(n.log, n.snapshot.lastIndex, LastIndex(n.log)))
  }

  function Changes(n: Node): seq<Change>
    requires LogOk(n.log)
  {
    if SnapshotPending(n) then SnapshotChanges(n) else HardStateChange(n) + EntryChanges(n)
  }

  /** The storage file after a Persist that completes. */
  function Persisted(crc: Checksum, b: Bytes, seqNum: nat, n: Node): Bytes
    requires LogOk(n.log)
  {
    if SnapshotPending(n) then EncodeAll(crc, ToRecords(0, Changes(n)))
    else b + EncodeAll(crc, ToRecords(seqNum, Changes(n)))
  }

  /** What a crash inside Persist may leave: one side of the rename, or the file cut anywhere in what was appended. */
  ghost predicate Leaves(crc: Checksum, b: Bytes, seqNum: nat, n: Node, left: Bytes)
    requires LogOk(n.log)
  {
    if SnapshotPending(n) then left == b || left == Persisted(crc, b, seqNum, n)
    else exists cut: nat :: CutAt(crc, b, seqNum, n, cut, left)
  }

  ghost predicate CutAt(crc: Checksum, b: Bytes, seqNum: nat, n: Node, cut: nat, left: Bytes)
    requires LogOk(n.log)
  {
    var tail := EncodeAll(crc, ToRecords(seqNum, Changes(n)));
    cut <= |tail| && left == b + tail[..cut]
  }

  /** The node's numbers and payloads fit their fields on disk. */
  predicate Sized(n: Node)
    requires LogOk(n.log)
  {
    && n.currentTerm < TwoTo64 && n.votedFor < TwoTo64 && n.unstableIndex < TwoTo64 && ChangeFits(NewSnapshot(n.snapshot))
    && forall i :: 0 <= i < |n.log| ==> ChangeFits(LogEntry(n.log[i]))
  }

  // ------------------------------------------------------------------- folding

  lemma {:induction false} FoldFails(recs: seq<Record>, i: nat)
    requires i < |recs| && DecodeChange(recs[i].value).None?
    ensures Fold(recs).None?
    decreases |recs|
  {
    hide DecodeChange, Absorb;
    if i < |recs| - 1 { FoldFails(recs[..|recs| - 1], i); }
  }

  lemma {:induction false} FoldIs(recs: seq<Record>, cs: seq<Change>)
    requires |recs| == |cs| && forall i :: 0 <= i < |recs| ==> DecodeChange(recs[i].value) == Some(cs[i])
    ensures Fold(recs) == Some(AbsorbAll(Blank, cs))
    decreases |cs|
  {
    hide DecodeChange, Absorb;
    if cs != [] { FoldIs(recs[..|recs| - 1], cs[..|cs| - 1]); }
  }

  /** A file is refused exactly for a record that does not decode. */
  lemma OpenExact(crc: Checksum, b: Bytes)
    ensures Open(crc, b).None? <==> exists i :: 0 <= i < |Records(crc, b)| && DecodeChange(Records(crc, b)[i].value).None?
  {
    hide DecodeChange, Records, Fold;
    var recs := Records(crc, b);
    if i :| 0 <= i < |recs| && DecodeChange(recs[i].value).None? {
      FoldFails(recs, i);
      assert Open(crc, b).None?;
      assert DecodeChange(Records(crc, b)[i].value).None?;
    } else {
      FoldIs(recs, seq(|recs|, i requires 0 <= i < |recs| => DecodeChange(recs[i].value).value));
    }
  }

  /** A snapshot record replayed over the entries it compacts does to them what CreateSnapshot did in memory. */
  lemma ReplayCompacts(k: Kept, n: Node, index: nat, data: Bytes)
    requires LogOk(n.log) && Opened(k).log == n.log && Base(n.log) < index <= n.commitIndex <= LastIndex(n.log)
    ensures !CompactPanics(n, index)
    ensures var r := AfterCompact(n, index, data);
            var o := Opened(Absorb(k, NewSnapshot(r.snapshot)));
            o.log == r.log && o.snapshot == r.snapshot && o.term == k.term && o.vote == k.vote
  {
    hide Above;
    OpenedBack(k);
    AboveIs(k.entries, Base(n.log) + 1, index);
    assert n.log[1..][index - Base(n.log)..] == n.log[index - Base(n.log) + 1..];
  }

  lemma {:induction false} FoldChanges(recs: seq<Record>, seqNum: nat, cs: seq<Change>)
    requires Fold(recs).Some? && forall i :: 0 <= i < |cs| ==> ChangeFits(cs[i])
    ensures Fold(recs + ToRecords(seqNum, cs)) == Some(AbsorbAll(Fold(recs).value, cs))
    decreases |cs|
  {
    hide EncodeChange, DecodeChange, Absorb;
    if cs == [] {
      assert recs + ToRecords(seqNum, cs) == recs;
    } else {
      var init := cs[..|cs| - 1];
      FoldChanges(recs, seqNum, init);
      var all := recs + ToRecords(seqNum, cs);
      assert all[..|all| - 1] == recs + ToRecords(seqNum, init);
      DecodeBack(cs[|cs| - 1]);
    }
  }

  lemma RecordsFit(seqNum: nat, cs: seq<Change>)
    requires forall i :: 0 <= i < |cs| ==> ChangeFits(cs[i])
    ensures AllFit(ToRecords(seqNum, cs))
  {
    hide Put;
  }

  ghost predicate AllChangesFit(cs: seq<Change>) { forall i :: 0 <= i < |cs| ==> ChangeFits(cs[i]) }

  lemma SliceFits(log: seq<Entry>, from: nat, to: nat)
    requires from <= to <= |log| && forall i :: 0 <= i < |log| ==> ChangeFits(LogEntry(log[i]))
    ensures AllChangesFit(Logged(log[from..to]))
  {
    hide ChangeFits;
    forall i | 0 <= i < to - from
      ensures ChangeFits(Logged(log[from..to])[i])
    {
      assert log[from..to][i] == log[from + i];
    }
  }

  lemma ConcatFits(a: seq<Change>, b: seq<Change>)
    requires AllChangesFit(a) && AllChangesFit(b)
    ensures AllChangesFit(a + b)
  {
    hide ChangeFits;
  }

  lemma EntryChangesFit(n: Node)
    requires LogOk(n.log) && Sized(n)
    ensures AllChangesFit(EntryChanges(n))
  {
    if Unstable(n) != [] {
      SliceFits(n.log, n.unstableIndex - Base(n.log), |n.log|);
      assert n.log[n.unstableIndex - Base(n.log)..|n.log|] == Unstable(n);
      ConcatFits([TruncateFrom(n.unstableIndex)], Logged(Unstable(n)));
    }
  }

  lemma SnapshotChangesFit(n: Node)
    requires LogOk(n.log) && Sized(n)
    ensures AllChangesFit(SnapshotChanges(n))
  {
    var es := EntriesIn(n.log, n.snapshot.lastIndex, LastIndex(n.log));
    assert AllChangesFit(Logged(es)) by {
      var s := if n.snapshot.lastIndex < Base(n.log) then Base(n.log) else n.snapshot.lastIndex;
      if s < LastIndex(n.log) { SliceFits(n.log, s - Base(n.log) + 1, LastIndex(n.log) - Base(n.log) + 1); }
    }
    ConcatFits([HardState(n.currentTerm, n.votedFor), NewSnapshot(n.snapshot)], Logged(es));
  }

  lemma ChangesFit(n: Node)
    requires LogOk(n.log) && Sized(n)
    ensures AllChangesFit(Changes(n))
  {
    hide EntryChanges, SnapshotChanges, AllChangesFit, LogOk;
    EntryChangesFit(n);
    SnapshotChangesFit(n);
    assert AllChangesFit(HardStateChange(n)) by { HardStateFits(n); }
    ConcatFits(HardStateChange(n), EntryChanges(n));
  }

  lemma HardStateFits(n: Node)
    requires LogOk(n.log) && Sized(n)
    ensures AllChangesFit(HardStateChange(n))
  {
  }

  // ---------------------------------------------------------------- what is read back

  lemma OpenedBack(k: Kept)
    ensures Opened(k).log[1..] == k.entries && Opened(k).log[0] == Sentinel(k.snapshot)
  {
  }

  /** Replaying the changes of a node onto what the file held. */
  lemma OpenChanges(crc: Checksum, b: Bytes, seqNum: nat, cs: seq<Change>, k: Kept)
    requires Fold(Records(crc, b)) == Some(k) && ValidLen(crc, b) == |b| && AllChangesFit(cs)
    ensures Stores(crc, b + EncodeAll(crc, ToRecords(seqNum, cs)), Opened(AbsorbAll(k, cs)))
  {
    hide Fold, Records, ValidLen, EncodeAll, AbsorbAll, ChangeFits;
    RecordsFit(seqNum, cs);
    AppendedReplay(crc, b, ToRecords(seqNum, cs));
    FoldChanges(Records(crc, b), seqNum, cs);
  }

  /** The entries TruncateFrom leaves are the log below it. */
  lemma TruncatedLog(log: seq<Entry>, i: nat)
    requires LogOk(log) && Base(log) < i <= LastIndex(log) + 1
    ensures RaftRecords.Below(log[1..], i) == log[1..i - Base(log)] && RaftNode.Below(log, i) == [log[0]] + log[1..i - Base(log)]
  {
    BelowIs(log[1..], Base(log) + 1, i);
  }

  /** What the file holds once term and vote, and j of the entries, are in. */
  lemma AbsorbPart(k: Kept, n: Node, j: nat)
    requires LogOk(n.log) && Unstable(n) != [] && j <= |Unstable(n)|
    requires LogOk(Opened(k).log) && Base(Opened(k).log) < n.unstableIndex <= LastIndex(Opened(k).log) + 1
    ensures Opened(AbsorbAll(k, [TruncateFrom(n.unstableIndex)] + Logged(Unstable(n)[..j])))
            == Opened(k).(log := RaftNode.Below(Opened(k).log, n.unstableIndex) + Unstable(n)[..j])
  {
    hide LogOk, Unstable;
    var log, es := Opened(k).log, Unstable(n)[..j];
    OpenedBack(k);
    AbsorbSplit(k, [TruncateFrom(n.unstableIndex)], Logged(es));
    var t := AbsorbAll(k, [TruncateFrom(n.unstableIndex)]);
    assert t == Absorb(k, TruncateFrom(n.unstableIndex)) by { assert [TruncateFrom(n.unstableIndex)][..0] == []; }
    AbsorbLogged(t, es);
    TruncatedLog(log, n.unstableIndex);
  }

  // ------------------------------------------------------------------ Persist

  lemma TrackedBoundary(n: Node, d: Durable, r: Node)
    requires Synced(n, d) && Tracked(n, r)
    ensures AtBoundary(r.log, r.snapshot)
  {
  }

  lemma SurvivingLog(log: seq<Entry>, snap: Snapshot)
    requires LogOk(log) && AtBoundary(log, snap) && snap.lastIndex > 0
    ensures [Sentinel(snap)] + EntriesIn(log, snap.lastIndex, LastIndex(log)) == log
  {
  }

  lemma SnapshotAbsorbed(n: Node)
    requires LogOk(n.log) && AtBoundary(n.log, n.snapshot) && n.snapshot.lastIndex > 0
    ensures Opened(AbsorbAll(Blank, SnapshotChanges(n))) == DurableOf(n)
  {
    hide EntriesIn, LogOk;
    var es := EntriesIn(n.log, n.snapshot.lastIndex, LastIndex(n.log));
    var hs, ns := HardState(n.currentTerm, n.votedFor), NewSnapshot(n.snapshot);
    AbsorbSplit(Blank, [hs, ns], Logged(es));
    assert [hs, ns][..1] == [hs] && [hs][..0] == [];
    var k := AbsorbAll(Blank, [hs, ns]);
    assert AbsorbAll(Blank, [hs]) == Absorb(AbsorbAll(Blank, []), hs);
    assert k == Absorb(AbsorbAll(Blank, [hs]), ns) == Kept(n.currentTerm, n.votedFor, [], n.snapshot);
    AbsorbLogged(k, es);
    SurvivingLog(n.log, n.snapshot);
  }

  /** Where records are appended, the disk held the node before the handler ran. */
  lemma AppendSetting(n: Node, d: Durable, r: Node)
    requires Synced(n, d) && Tracked(n, r) && !SnapshotPending(r)
    ensures d == DurableOf(n) && r.snapshot == n.snapshot && r.stableTerm == n.currentTerm && r.stableVote == n.votedFor
    ensures Unstable(r) != [] ==> Base(d.log) < r.unstableIndex <= LastIndex(d.log) + 1 && LogOk(d.log)
  {
  }

  lemma HardStateAbsorbed(k: Kept, n: Node)
    requires (k.term == n.stableTerm && k.vote == n.stableVote)
    ensures AbsorbAll(k, HardStateChange(n)) == k.(term := n.currentTerm, vote := n.votedFor)
  {
    assert [HardState(n.currentTerm, n.votedFor)][..0] == [];
  }

  /** The state after some of the changes of a Persist that appends. */
  function Partial(d: Durable, n: Node, w: nat): Durable
    requires LogOk(n.log) && LogOk(d.log) && w <= |HardStateChange(n)| + |EntryChanges(n)|
  {
    var h := |HardStateChange(n)|;
    if w < h then d
    else if w == h then d.(term := n.currentTerm, vote := n.votedFor)
    else Durable(n.currentTerm, n.votedFor, RaftNode.Below(d.log, n.unstableIndex) + Unstable(n)[..w - h - 1], d.snapshot)
  }

  lemma PartialEntries(n: Node, w: nat)
    requires LogOk(n.log) && |HardStateChange(n)| < w <= |HardStateChange(n)| + |EntryChanges(n)|
    ensures Unstable(n) != [] && w - |HardStateChange(n)| - 1 <= |Unstable(n)|
    ensures (HardStateChange(n) + EntryChanges(n))[..w]
            == HardStateChange(n) + ([TruncateFrom(n.unstableIndex)] + Logged(Unstable(n)[..w - |HardStateChange(n)| - 1]))
  {
    hide LogOk, Unstable;
  }

  lemma PartialAbsorbed(k: Kept, d: Durable, n: Node, w: nat)
    requires LogOk(n.log) && Opened(k) == d && LogOk(d.log) && d.term == n.stableTerm && d.vote == n.stableVote
    requires Unstable(n) != [] ==> Base(d.log) < n.unstableIndex <= LastIndex(d.log) + 1
    requires w <= |HardStateChange(n)| + |EntryChanges(n)|
    ensures Opened(AbsorbAll(k, (HardStateChange(n) + EntryChanges(n))[..w])) == Partial(d, n, w)
  {
    hide LogOk, Unstable, EntryChanges;
    var hs := HardStateChange(n);
    var cs := hs + EntryChanges(n);
    var h := k.(term := n.currentTerm, vote := n.votedFor);
    HardStateAbsorbed(k, n);
    if w <= |hs| {
      assert cs[..w] == if w == |hs| then hs else [];
    } else {
      PartialEntries(n, w);
      var j := w - |hs| - 1;
      AbsorbSplit(k, hs, [TruncateFrom(n.unstableIndex)] + Logged(Unstable(n)[..j]));
      assert Opened(h) == d.(term := n.currentTerm, vote := n.votedFor);
      AbsorbPart(h, n, j);
    }
  }

  lemma AppendedWhole(n: Node, d: Durable, r: Node)
    requires Synced(n, d) && Tracked(n, r) && !SnapshotPending(r) && LogOk(d.log)
    ensures Partial(d, r, |HardStateChange(r)| + |EntryChanges(r)|) == DurableOf(r)
  {
    hide Tracked, Synced;
    PersistExact(n, d, r);
    AppendSetting(n, d, r);
    TrackedLogs(n, r);
    assert Unstable(r)[..|Unstable(r)|] == Unstable(r);
  }

  /**
   * After every Persist, OpenStorage gives back exactly the node's term, vote, log and snapshot,
   * from a file without a torn tail.
   */
  lemma PersistStores(crc: Checksum, b: Bytes, seqNum: nat, n: Node, d: Durable, r: Node)
    requires Stores(crc, b, d) && Synced(n, d) && Tracked(n, r) && Sized(r)
    ensures Stores(crc, Persisted(crc, b, seqNum, r), DurableOf(r))
  {
    hide Records, ValidLen, EncodeAll, AbsorbAll, Sized, Changes, AllChangesFit, Synced, Tracked, Fold;
    TrackedLogs(n, r);
    ChangesFit(r);
    if SnapshotPending(r) {
      EmptyFile(crc);
      OpenChanges(crc, [], 0, Changes(r), Blank);
      assert [] + EncodeAll(crc, ToRecords(0, Changes(r))) == EncodeAll(crc, ToRecords(0, Changes(r)));
      TrackedBoundary(n, d, r);
      SnapshotAbsorbed(r);
      assert Changes(r) == SnapshotChanges(r) by { ChangesCases(r); }
    } else {
      var k := Fold(Records(crc, b)).value;
      AppendSetting(n, d, r);
      OpenChanges(crc, b, seqNum, Changes(r), k);
      ChangesCases(r);
      var w := |HardStateChange(r)| + |EntryChanges(r)|;
      PartialAbsorbed(k, d, r, w);
      assert (HardStateChange(r) + EntryChanges(r))[..w] == Changes(r);
      AppendedWhole(n, d, r);
    }
  }

  lemma ChangesCases(n: Node)
    requires LogOk(n.log)
    ensures Changes(n) == if SnapshotPending(n) then SnapshotChanges(n) else HardStateChange(n) + EntryChanges(n)
  {
  }

  lemma EmptyFile(crc: Checksum)
    ensures Records(crc, []) == [] && ValidLen(crc, []) == 0 && Fold([]) == Some(Blank) && Stores(crc, [], Opened(Blank))
  {
  }

  // -------------------------------------------------------------------- crashes

  /** Each partial state is one of those a crash may leave. */
  lemma PartialRecoverable(n: Node, d: Durable, r: Node, w: nat)
    requires Synced(n, d) && Tracked(n, r) && !SnapshotPending(r) && LogOk(d.log)
    requires w <= |HardStateChange(r)| + |EntryChanges(r)|
    ensures Recoverable(d, r, Partial(d, r, w)) && LogOk(Partial(d, r, w).log)
  {
    hide Tracked, Synced, RaftNode.Below, Unstable;
    AppendSetting(n, d, r);
    TrackedLogs(n, r);
    var h := |HardStateChange(r)|;
    if w > h {
      PartialEntries(r, w);
      var j := w - h - 1;
      assert TornEntries(d, r, Partial(d, r, w));
      PrefixLogOk(n, d, r, j);
    }
  }

  lemma PrefixLogOk(n: Node, d: Durable, r: Node, j: nat)
    requires Synced(n, d) && Tracked(n, r) && !SnapshotPending(r) && LogOk(d.log) && Unstable(r) != [] && j <= |Unstable(r)|
    ensures LogOk(RaftNode.Below(d.log, r.unstableIndex) + Unstable(r)[..j])
  {
    hide Tracked, Synced, LogOk, Unstable, RaftNode.Below;
    AppendSetting(n, d, r);
    PersistExact(n, d, r);
    TrackedLogs(n, r);
    var a := RaftNode.Below(d.log, r.unstableIndex);
    assert a != [] by { SomeBelow(d.log, r.unstableIndex); }
    assert r.log == a + Unstable(r);
    assert a + Unstable(r)[..j] == r.log[..|a| + j];
    FrontLogOk(r.log, |a| + j);
  }

  lemma SomeBelow(log: seq<Entry>, i: nat)
    requires LogOk(log) && Base(log) < i
    ensures RaftNode.Below(log, i) != []
  {
  }

  lemma FrontLogOk(log: seq<Entry>, k: nat)
    requires LogOk(log) && 0 < k <= |log|
    ensures LogOk(log[..k])
  {
  }

  lemma TornRecords(seqNum: nat, cs: seq<Change>, w: nat)
    requires w <= |cs|
    ensures ToRecords(seqNum, cs)[..w] == ToRecords(seqNum, cs[..w])
  {
  }

  lemma CutOpens(crc: Checksum, b: Bytes, seqNum: nat, n: Node, d: Durable, r: Node, cut: nat, left: Bytes)
    requires Stores(crc, b, d) && Synced(n, d) && Tracked(n, r) && Sized(r) && !SnapshotPending(r) && CutAt(crc, b, seqNum, r, cut, left)
    ensures LogOk(d.log) && Open(crc, left).Some? && Recoverable(d, r, Open(crc, left).value) && LogOk(Open(crc, left).value.log)
  {
    hide Records, ValidLen, EncodeAll, AbsorbAll, Sized, Changes, AllChangesFit, Synced, Tracked, Fold, Recoverable;
    TrackedLogs(n, r);
    AppendSetting(n, d, r);
    ChangesFit(r);
    ChangesCases(r);
    var cs := Changes(r);
    var recs := ToRecords(seqNum, cs);
    var w := Whole(crc, recs, cut);
    RecordsFitAll(seqNum, cs);
    TornAppend(crc, b, recs, cut);
    TornRecords(seqNum, cs, w);
    PrefixFits(cs, w);
    var k := Fold(Records(crc, b)).value;
    FoldAll(Records(crc, b), seqNum, cs[..w]);
    PartialAbsorbed(k, d, r, w);
    PartialRecoverable(n, d, r, w);
  }

  lemma PrefixFits(cs: seq<Change>, w: nat)
    requires AllChangesFit(cs) && w <= |cs|
    ensures AllChangesFit(cs[..w])
  {
    hide ChangeFits;
  }

  lemma RecordsFitAll(seqNum: nat, cs: seq<Change>)
    requires AllChangesFit(cs)
    ensures AllFit(ToRecords(seqNum, cs))
  {
    RecordsFit(seqNum, cs);
  }

  lemma FoldAll(recs: seq<Record>, seqNum: nat, cs: seq<Change>)
    requires Fold(recs).Some? && AllChangesFit(cs)
    ensures Fold(recs + ToRecords(seqNum, cs)) == Some(AbsorbAll(Fold(recs).value, cs))
  {
    FoldChanges(recs, seqNum, cs);
  }

  /**
   * A crash at any byte of Persist: the file opens, to a state `RaftNode.Recoverable` allows, and
   * what OpenStorage leaves after cutting the torn tail stores that state.
   */
  lemma CrashStores(crc: Checksum, b: Bytes, seqNum: nat, n: Node, d: Durable, r: Node, left: Bytes)
    requires Stores(crc, b, d) && Synced(n, d) && LogOk(d.log) && Tracked(n, r) && Sized(r) && Leaves(crc, b, seqNum, r, left)
    ensures Open(crc, left).Some? && Recoverable(d, r, Open(crc, left).value) && LogOk(Open(crc, left).value.log)
    ensures Stores(crc, left[..ValidLen(crc, left)], Open(crc, left).value)
  {
    hide Records, ValidLen, Persisted, CutAt, Sized, Fold;
    TruncateOnce(crc, left);
    if SnapshotPending(r) {
      PersistStores(crc, b, seqNum, n, d, r);
    } else {
      var cut: nat :| CutAt(crc, b, seqNum, r, cut, left);
      CutOpens(crc, b, seqNum, n, d, r, cut, left);
    }
  }
}
