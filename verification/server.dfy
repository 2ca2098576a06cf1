/** What a node of the cluster hands to its server is a stretch of the one committed log. */
module ServerLog {
  import opened Bytes
  import opened RaftTypes
  import opened RaftCore
  import opened RaftNode
  import opened RaftCluster
  import opened RaftSteps
  import opened RaftInvariant
  import opened RaftSafety

  function Datas(es: seq<Entry>): (ds: seq<Bytes>)
    ensures |ds| == |es| && forall i :: 0 <= i < |es| ==> ds[i] == es[i].data
  {
    if es == [] then [] else Datas(es[..|es| - 1]) + [es[|es| - 1].data]
  }

  /** The log every replica of a run applies: what its last state has committed. */
  ghost function AppliedLog(states: seq<Cluster>): seq<Bytes>
    requires states != []
  {
    Datas(states[|states| - 1].core.committed)
  }

  lemma HandedEntry(states: seq<Cluster>, actions: seq<Action>, i: nat, v: Id, k: nat)
    requires Run(states, actions) && i < |states| && v in states[i].nodes && HasCommitted(states[i].nodes[v], k)
    ensures k <= |AppliedLog(states)| && EntryAt(states[i].nodes[v], k).data == AppliedLog(states)[k - 1]
  {
    hide Good, Run, Extends, EntryAt, HasCommitted;
    var j := |states| - 1;
    RunGood(states, actions, i);
    CommittedEntry(states[i], v, k);
    RunExtends(states, actions, i, j);
    assert k >= 1 by { Positive(states[i].nodes[v], k); }
    CommittedGrows(states[i].core, states[j].core, k);
  }

  lemma Positive(n: Node, k: nat)
    requires HasCommitted(n, k)
    ensures k >= 1
  {
  }

  lemma CommitBetween(states: seq<Cluster>, actions: seq<Action>, i: nat, v: Id)
    requires Run(states, actions) && i < |states| && v in states[i].nodes
    ensures var n := states[i].nodes[v];
            LogOk(n.log) && Base(n.log) <= n.commitIndex <= LastIndex(n.log) && n.commitIndex <= |AppliedLog(states)|
  {
    hide Good, Run, Extends, Inv, LogView, VoteView, CandidateView, LeaderView, DiskOk, Wired, CommittedBy;
    RunGood(states, actions, i);
    CommitKnown(states[i], v);
    RunExtends(states, actions, i, |states| - 1);
    CommitWithin(states[i], states[|states| - 1], v);
    GoodNode(states[i], v);
  }

  /**
   * At any point of a run, what Entries gives a server that has applied up to a is
   * the committed log from there, or from the compaction boundary if that is later.
   */
  lemma HandedOut(states: seq<Cluster>, actions: seq<Action>, i: nat, v: Id, a: nat)
    requires Run(states, actions) && i < |states| && v in states[i].nodes
    ensures var n := states[i].nodes[v];
            && LogOk(n.log) && Base(n.log) <= n.commitIndex <= LastIndex(n.log) && n.commitIndex <= |AppliedLog(states)|
            && var from := if a < Base(n.log) then Base(n.log) else a;
               from < n.commitIndex ==> Datas(EntriesIn(n.log, a, n.commitIndex)) == AppliedLog(states)[from..n.commitIndex]
  {
    hide Good, Run, AppliedLog, Datas, EntryAt, HasCommitted, EntriesIn, LogOk;
    var n := states[i].nodes[v];
    CommitBetween(states, actions, i, v);
    var from := if a < Base(n.log) then Base(n.log) else a;
    if from < n.commitIndex {
      var es := EntriesIn(n.log, a, n.commitIndex);
      HandedAt(n, a, 0);
      HandedEntry(states, actions, i, v, n.commitIndex);
      forall j | 0 <= j < |es|
        ensures Datas(es)[j] == AppliedLog(states)[from + j]
      {
        HandedAt(n, a, j);
        HandedEntry(states, actions, i, v, from + j + 1);
      }
      SliceIs(Datas(es), AppliedLog(states), from, n.commitIndex);
    }
  }

  lemma SliceIs(ds: seq<Bytes>, log: seq<Bytes>, from: nat, k: nat)
    requires from <= k <= |log| && |ds| == k - from && forall j :: 0 <= j < |ds| ==> ds[j] == log[from + j]
    ensures ds == log[from..k]
  {
  }

  lemma HandedAt(n: Node, a: nat, j: nat)
    requires LogOk(n.log) && n.commitIndex <= LastIndex(n.log)
    ensures var from, es := if a < Base(n.log) then Base(n.log) else a, EntriesIn(n.log, a, n.commitIndex);
            from < n.commitIndex ==>
              && |es| == n.commitIndex - from && HasCommitted(n, n.commitIndex)
              && (j < |es| ==> HasCommitted(n, from + j + 1) && es[j] == EntryAt(n, from + j + 1))
  {
  }

  /** The node hands out the committed log, as far back as its own log reaches. */
  ghost predicate Hands(n: Node, log: seq<Bytes>) {
    && LogOk(n.log) && Base(n.log) <= n.commitIndex <= LastIndex(n.log) && n.commitIndex <= |log|
    && forall a: nat :: Base(n.log) <= a < n.commitIndex ==> Datas(EntriesIn(n.log, a, n.commitIndex)) == log[a..n.commitIndex]
  }

  /** So does every node at every point of a run. */
  lemma RunHands(states: seq<Cluster>, actions: seq<Action>, i: nat, v: Id)
    requires Run(states, actions) && i < |states| && v in states[i].nodes
    ensures Hands(states[i].nodes[v], AppliedLog(states))
  {
    hide Run, AppliedLog, Datas, EntriesIn, LogOk;
    CommitBetween(states, actions, i, v);
    var n := states[i].nodes[v];
    forall a: nat | Base(n.log) <= a < n.commitIndex
      ensures Datas(EntriesIn(n.log, a, n.commitIndex)) == AppliedLog(states)[a..n.commitIndex]
    {
      HandedOut(states, actions, i, v, a);
    }
  }

  lemma HandsShape(n: Node, log: seq<Bytes>)
    requires Hands(n, log)
    ensures LogOk(n.log) && Base(n.log) <= n.commitIndex <= LastIndex(n.log) && n.commitIndex <= |log|
  {
    hide LogOk;
  }

  /** The server misses entries exactly when the log was compacted past what it has applied. */
  lemma Missed(n: Node, a: nat)
    requires LogOk(n.log) && a < n.commitIndex <= LastIndex(n.log)
    ensures |EntriesIn(n.log, a, n.commitIndex)| == n.commitIndex - a <==> Base(n.log) <= a
  {
  }
}

/** The server's event-loop steps: applying committed entries, restoring snapshots, taking them, answering clients. */
module Servers {
  import opened Bytes
  import opened RaftTypes
  import opened RaftNode
  import opened LittleEndian
  import opened Wal
  import opened Stores
  import opened EngineSteps
  import opened Memtables
  import opened Engines
  import opened SnapshotFormat
  import opened EngineSnapshots
  import opened Commands
  import opened Replicas
  import opened ServerLog

  /** What a waiting client is told. */
  datatype Outcome = Done | Malformed | Failed | Superseded

  /**
   * What a client may be told: of success exactly when its own command is the one committed at its index,
   * decodes, and went through; that it was superseded exactly when another command is there.
   */
  predicate Fair(proposed: Bytes, committed: Bytes, ok: bool, told: Outcome) {
    && (told == Done <==> proposed == committed && DecodeCommand(proposed).Some? && ok)
    && (told == Superseded <==> proposed != committed)
    && (told == Malformed <==> proposed == committed && DecodeCommand(proposed).None?)
    && (told == Failed <==> proposed == committed && DecodeCommand(proposed).Some? && !ok)
  }

  function OutcomeOf(proposed: Bytes, committed: Bytes, ok: bool): Outcome {
    if proposed != committed then Superseded
    else if DecodeCommand(committed).None? then Malformed
    else if !ok then Failed
    else Done
  }

  lemma {:induction false} EffectsNext(datas: seq<Bytes>, i: nat)
    requires i < |datas|
    ensures Effects(datas[..i + 1]) == Effects(datas[..i]) + match DecodeCommand(datas[i]) case Some(op) => [op] case None => []
  {
    hide DecodeCommand;
    assert datas[..i + 1][..i] == datas[..i];
  }

  /** The batch: every entry that decodes, in order. */
  method DecodeAll(es: seq<Entry>) returns (ops: seq<Op>)
    ensures ops == Effects(Datas(es))
  {
    hide DecodeCommand, Effects;
    ghost var ds := Datas(es);
    ops := [];
    assert Effects(ds[..0]) == [] by { NoEffects(ds); }
    for i := 0 to |es|
      invariant ops == Effects(ds[..i])
    {
      EffectsNext(ds, i);
      var op := DecodeCommand(es[i].data);
      if op.Some? { ops := ops + [op.value]; }
    }
    assert ds[..|ds|] == ds;
  }

  lemma NoEffects(ds: seq<Bytes>)
    ensures Effects(ds[..0]) == []
  {
  }

  /**
   * The clients waiting on entries a+1 and on: each of them is told its outcome and
   * waits no longer; all others wait as before.
   */
  ghost predicate Informed(es: seq<Entry>, a: nat, was: map<nat, Bytes>, now: map<nat, Bytes>, told: map<nat, Outcome>, ok: bool) {
    && (forall k :: k in told <==> k in was && a < k <= a + |es|)
    && (forall i :: 0 <= i < |es| && a + 1 + i in told ==> Fair(was[a + 1 + i], es[i].data, ok, told[a + 1 + i]))
    && (forall k :: k in now <==> k in was && k !in told) && forall k :: k in now ==> now[k] == was[k]
  }

  lemma NoneInformed(a: nat, was: map<nat, Bytes>, ok: bool)
    ensures Informed([], a, was, was, map[], ok)
  {
  }

  lemma FairOutcome(proposed: Bytes, committed: Bytes, ok: bool)
    ensures Fair(proposed, committed, ok, OutcomeOf(proposed, committed, ok))
  {
    hide DecodeCommand;
  }

  /** Whoever is told of success has its operation among those the engine was given. */
  ghost predicate Recorded(before: seq<Op>, hist: seq<Op>, was: map<nat, Bytes>, told: map<nat, Outcome>) {
    forall k :: k in told && k in was && told[k] == Done ==> exists j :: |before| <= j < |hist| && DecodeCommand(was[k]) == Some(hist[j])
  }

  lemma {:induction false} EffectThere(datas: seq<Bytes>, i: nat) returns (j: nat)
    requires i < |datas| && DecodeCommand(datas[i]).Some?
    ensures j < |Effects(datas)| && Effects(datas)[j] == DecodeCommand(datas[i]).value
    decreases |datas|
  {
    hide DecodeCommand;
    var n := |datas| - 1;
    if i == n { j := |Effects(datas[..n])|; } else { j := EffectThere(datas[..n], i); }
  }

  lemma InformedRecorded(es: seq<Entry>, a: nat, was: map<nat, Bytes>, now: map<nat, Bytes>, told: map<nat, Outcome>, ok: bool, before: seq<Op>, hist: seq<Op>)
    requires Informed(es, a, was, now, told, ok) && (ok ==> hist == before + Effects(Datas(es)))
    ensures Recorded(before, hist, was, told)
  {
    hide DecodeCommand, Effects, Datas;
    forall k | k in told && k in was && told[k] == Done
      ensures exists j :: |before| <= j < |hist| && DecodeCommand(was[k]) == Some(hist[j])
    {
      var i := k - a - 1;
      assert Fair(was[a + 1 + i], es[i].data, ok, told[a + 1 + i]);
      var j := EffectThere(Datas(es), i);
      assert hist[|before| + j] == Effects(Datas(es))[j];
    }
  }

  /** The clients waiting on what the node hands out from `start` on are told, and no others. */
  ghost predicate Told(n: Node, start: nat, was: map<nat, Bytes>, now: map<nat, Bytes>, told: map<nat, Outcome>, failed: bool)
    requires LogOk(n.log)
  {
    var es := EntriesIn(n.log, start, n.commitIndex);
    Informed(es, if start < Base(n.log) then Base(n.log) else start, was, now, told, !failed || Effects(Datas(es)) == [])
  }

  /**
   * The same against the committed log, for an engine that takes writes: whoever waits on an index in
   * (from, to] is told, and told of success exactly when its payload is the entry there and decodes.
   */
  ghost predicate Answers(log: seq<Bytes>, from: nat, to: nat, was: map<nat, Bytes>, now: map<nat, Bytes>, told: map<nat, Outcome>) {
    && (forall k :: k in told <==> k in was && from < k <= to)
    && (forall k :: k in told ==> k <= |log| && Fair(was[k], log[k - 1], true, told[k]))
    && (forall k :: k in now <==> k in was && k !in told) && forall k :: k in now ==> now[k] == was[k]
  }

  lemma ToldByLog(n: Node, log: seq<Bytes>, start: nat, was: map<nat, Bytes>, now: map<nat, Bytes>, told: map<nat, Outcome>)
    requires Hands(n, log) && Base(n.log) <= start && Told(n, start, was, now, told, false)
    ensures Answers(log, start, if start < n.commitIndex then n.commitIndex else start, was, now, told)
  {
    hide Fair, LogOk, EntriesIn, Effects;
    var es := EntriesIn(n.log, start, n.commitIndex);
    EntriesNumbered(n, start);
    NothingHanded(n, start);
    forall k | k in told
      ensures k <= |log| && Fair(was[k], log[k - 1], true, told[k])
    {
      var i := k - start - 1;
      assert Fair(was[start + 1 + i], es[i].data, true, told[start + 1 + i]);
      assert Datas(es)[i] == log[start..n.commitIndex][i];
    }
  }

  lemma EntriesNumbered(n: Node, a: nat)
    requires LogOk(n.log)
    ensures var from, es := if a < Base(n.log) then Base(n.log) else a, EntriesIn(n.log, a, n.commitIndex);
            && (forall i :: 0 <= i < |es| ==> es[i].index == from + 1 + i)
            && (n.commitIndex <= LastIndex(n.log) && es != [] ==> from + |es| == n.commitIndex)
            && (Base(n.log) <= a < n.commitIndex <= LastIndex(n.log) ==> es != [])
  {
  }

  lemma NothingHanded(n: Node, a: nat)
    requires LogOk(n.log)
    ensures a >= n.commitIndex ==> EntriesIn(n.log, a, n.commitIndex) == []
    ensures Datas([]) == [] && Effects([]) == []
  {
  }

  lemma {:induction false} EffectsShort(datas: seq<Bytes>)
    ensures |Effects(datas)| <= |datas|
    decreases |datas|
  {
    hide DecodeCommand;
    if datas != [] { EffectsShort(datas[..|datas| - 1]); }
  }

  lemma EntriesShort(n: Node, a: nat)
    requires LogOk(n.log)
    ensures |EntriesIn(n.log, a, n.commitIndex)| <= n.commitIndex
  {
  }

  /** Whatever the node hands out next can be logged. */
  ghost predicate Roomy(n: Node, seqNum: nat) {
    LogOk(n.log) && forall a: nat :: AllFit(RecordsFor(Effects(Datas(EntriesIn(n.log, a, n.commitIndex))), seqNum))
  }

  lemma RoomyAt(n: Node, seqNum: nat, a: nat)
    requires Roomy(n, seqNum)
    ensures LogOk(n.log) && AllFit(RecordsFor(Effects(Datas(EntriesIn(n.log, a, n.commitIndex))), seqNum))
  {
    hide LogOk, AllFit, RecordsFor, Effects, Datas, EntriesIn;
  }

  /** The operations leave what the snapshot's bytes stand for. */
  ghost predicate Restored(data: Bytes, hist: seq<Op>) {
    DecodePairs(data).Some? && forall l: Layer :: Represents(DecodePairs(data).value, l) ==> SameAnswers(Written(hist), l)
  }

  // ------------------------------------------------------------- a server as a replica of the log

  /** A snapshot from which a replica of the log may go on, as of an index. */
  ghost predicate Resumable(log: seq<Bytes>, data: Bytes, index: nat) {
    DecodePairs(data).Some? && exists l: Layer, high: nat :: Represents(DecodePairs(data).value, l) && Catching(log, Replica(l, index, high))
  }

  lemma ResumableRestores(log: seq<Bytes>, data: Bytes, index: nat)
    requires Resumable(log, data, index)
    ensures Restorable(data)
  {
    hide DecodePairs, Catching;
  }

  /** The store restored from it goes on from there. */
  lemma ResumedAt(log: seq<Bytes>, data: Bytes, index: nat, base: seq<Op>) returns (high: nat)
    requires Resumable(log, data, index) && Restored(data, base)
    ensures Catching(log, Replica(Written(base), index, high))
  {
    hide DecodePairs, Catching, Represents, SameAnswers, Written;
    var l: Layer, h: nat :| Represents(DecodePairs(data).value, l) && Catching(log, Replica(l, index, h));
    high := h;
    TakeCatching(log, Replica(l, index, h), Written(base));
  }

  lemma TakenResumable(log: seq<Bytes>, ps: seq<Pair>, l: Layer, index: nat, high: nat)
    requires Represents(ps, l) && |EncodePairs(ps)| < TwoTo32 && Catching(log, Replica(l, index, high))
    ensures Resumable(log, EncodePairs(ps), index)
  {
    hide EncodePairs, DecodePairs, Catching, Represents;
    PairsBack(ps);
  }

  /**
   * The node hands a server that has applied up to `from` the log it needs: its own reaches back that
   * far, or to a snapshot from which a replica may go on.
   */
  ghost predicate Serves(n: Node, log: seq<Bytes>, from: nat) {
    && Hands(n, log) && (n.toApply.Some? ==> Resumable(log, n.toApply.value.data, n.toApply.value.lastIndex))
    && Base(n.log) <= if n.toApply.Some? then n.toApply.value.lastIndex else from
  }

  lemma ServesShape(n: Node, log: seq<Bytes>, from: nat)
    requires Serves(n, log, from)
    ensures Hands(n, log) && LogOk(n.log) && Base(n.log) <= n.commitIndex <= LastIndex(n.log) && n.commitIndex <= |log|
    ensures Base(n.log) <= if n.toApply.Some? then n.toApply.value.lastIndex else from
    ensures n.toApply.Some? ==> Resumable(log, n.toApply.value.data, n.toApply.value.lastIndex) && Restorable(n.toApply.value.data)
  {
    hide Hands, LogOk, Resumable, Restorable;
    HandsShape(n, log);
    if n.toApply.Some? { ResumableRestores(log, n.toApply.value.data, n.toApply.value.lastIndex); }
  }

  lemma ViewIsHist(e: Engine)
    requires e.Valid() && !e.flushErr
    ensures View(e.Now()) == Written(e.hist)
  {
    hide View, Good, Written, Memtable.Valid;
    OpenView(e.crc, e.Abs());
  }

  /** Applying what the node hands out takes the replica to the commit index. */
  lemma AppliedTo(log: seq<Bytes>, n: Node, base: seq<Op>, a: nat, high: nat) returns (top: nat)
    requires Hands(n, log) && Base(n.log) <= a && Catching(log, Replica(Written(base), a, high))
    ensures var k := if a < n.commitIndex then n.commitIndex else a;
            && top == (if k > high then k else high)
            && Catching(log, Replica(Written(base + Effects(Datas(EntriesIn(n.log, a, n.commitIndex)))), k, top))
  {
    hide LogOk, EntriesIn, Datas, Effects, Written, Catching;
    if a < n.commitIndex {
      top := if n.commitIndex > high then n.commitIndex else high;
      ApplyCatching(log, Replica(Written(base), a, high), n.commitIndex);
      WrittenAppend(base, Effects(log[a..n.commitIndex]));
    } else {
      top := high;
      CatchingWithin(log, Replica(Written(base), a, high));
      NothingHanded(n, a);
      assert base + [] == base;
    }
  }

  /**
   * A server that went down inside a batch, or between batches (a cut of nothing), and whose engine has
   * recovered: replaying the log from the beginning brings it up to date again.
   */
  lemma RecoveredCatching(crc: Checksum, s: State, recs: seq<Record>, cut: nat, t: State, log: seq<Bytes>, a: nat, high: nat, c: nat) returns (top: nat)
    requires Good(crc, s) && Possible(crc, s, BatchCrash(recs, cut)) && a <= c <= |log| && OpsOf(recs) == Effects(log[a..c])
    requires Catching(log, Replica(View(s.up.value), a, high))
    requires Good(crc, t) && t.up.Some? && t.up.value.flush.Idle? && t.hist == After(crc, s, BatchCrash(recs, cut)).hist
    ensures Catching(log, Replica(View(t.up.value), 0, top))
  {
    hide Good, View, Effects, Written, Catching, OpsOf, EncodeAll, Whole;
    var k := Whole(crc, recs, cut);
    OpenView(crc, s);
    OpenView(crc, t);
    OpsTake(recs, k);
    top := CutCatching(log, Replica(View(s.up.value), a, high), c, k);
    WrittenAppend(s.hist, OpsOf(recs[..k]));
  }

  /** One that went down between batches, its flush under way or not: a crash leaves what it should hold as it was. */
  lemma StoppedCatching(crc: Checksum, s: State, t: State, log: seq<Bytes>, a: nat, high: nat)
    requires Good(crc, s) && s.up.Some? && (s.up.value.flush.Busy? ==> !s.up.value.flush.failed) && Catching(log, Replica(View(s.up.value), a, high))
    requires Good(crc, t) && t.up.Some? && t.up.value.flush.Idle? && t.hist == s.hist
    ensures Catching(log, Replica(View(t.up.value), 0, high))
  {
    hide Good, View, Written, Catching;
    OpenView(crc, s);
    OpenView(crc, t);
    RestartCatching(log, Replica(View(s.up.value), a, high));
  }

  /** How far a server has applied, what its engine has been told, and whether a flush has failed it. */
  datatype Place = Place(applied: nat, hist: seq<Op>, failed: bool)

  /**
   * What a pump does to a server: it starts from a received snapshot if that can be restored, else from
   * where it was, and an engine that takes writes is told all that the node hands out from there.
   */
  ghost predicate Caught(n: Node, was: Place, start: nat, base: seq<Op>, now: Place)
    requires LogOk(n.log)
  {
    && (n.toApply.Some? && Restorable(n.toApply.value.data) ==>
          start == n.toApply.value.lastIndex && !now.failed && Restored(n.toApply.value.data, base))
    && (!(n.toApply.Some? && Restorable(n.toApply.value.data)) ==> start == was.applied && base == was.hist && now.failed == was.failed)
    && now.hist == (if now.failed then base else base + Effects(Datas(EntriesIn(n.log, start, n.commitIndex))))
    && (n.commitIndex <= LastIndex(n.log) && Base(n.log) <= start ==> now.applied == if start < n.commitIndex then n.commitIndex else start)
  }

  /** Exactly the confirmed reads that someone waits for, each with its index. */
  ghost predicate Resolved(answered: map<nat, nat>, pending: set<nat>, rs: seq<ReadState>) {
    && (forall c :: c in answered <==> c in pending && exists i :: 0 <= i < |rs| && rs[i].ctx == c)
    && forall c :: c in answered ==> exists i :: 0 <= i < |rs| && rs[i] == ReadState(answered[c], c)
  }

  predicate ReadsUpTo(rs: seq<ReadState>, k: nat) { forall i :: 0 <= i < |rs| ==> rs[i].index <= k }

  predicate AnswersUpTo(answered: map<nat, nat>, k: nat) { forall c :: c in answered ==> answered[c] <= k }

  lemma ResolvedWithin(answered: map<nat, nat>, pending: set<nat>, rs: seq<ReadState>, k: nat, j: nat)
    requires Resolved(answered, pending, rs) && k <= j
    ensures ReadsUpTo(rs, k) ==> AnswersUpTo(answered, j)
  {
  }

  /** When a snapshot is due: enough has been applied since the last one, taken or received. */
  predicate Due(threshold: nat, mark: nat, applied: nat) { threshold > 0 && applied >= mark + threshold }

  /** The mark a pump starts from: a received snapshot, if it could be restored, is the last one. */
  ghost function Mark(n: Node, mark: nat): nat {
    if n.toApply.Some? && Restorable(n.toApply.value.data) then n.toApply.value.lastIndex else mark
  }

  /** CreateSnapshot. */
  function Created(n: Node, index: nat, data: Bytes): Option<Node>
    requires LogOk(n.log)
  {
    if CompactPanics(n, index) then None else Some(AfterCompact(n, index, data))
  }

  class Server {
    const eng: Engine
    const snapshotThreshold: nat
    var lastApplied: nat
    var lastSnapshotIndex: nat
    var waiters: map<nat, Bytes>
    var pendingReads: set<nat>

    constructor (eng: Engine, snapshotThreshold: nat)
      ensures this.eng == eng && this.snapshotThreshold == snapshotThreshold && lastApplied == 0 && lastSnapshotIndex == 0
      ensures waiters == map[] && pendingReads == {}
    {
      this.eng, this.snapshotThreshold, lastApplied, lastSnapshotIndex, waiters, pendingReads := eng, snapshotThreshold, 0, 0, map[], {};
    }

    /** SeedAppliedIndex. */
    method Seed(index: nat)
      modifies this`lastApplied, this`lastSnapshotIndex
      ensures lastApplied == index && lastSnapshotIndex == index
    {
      lastApplied, lastSnapshotIndex := index, index;
    }

    /** The clients whose index came up are told, and no others. */
    method Notify(es: seq<Entry>, ok: bool, ghost from: nat) returns (told: map<nat, Outcome>)
      requires es != [] && forall i :: 0 <= i < |es| ==> es[i].index == from + 1 + i
      modifies this`lastApplied, this`waiters
      ensures lastApplied == from + |es| && Informed(es, from, old(waiters), waiters, told, ok)
    {
      hide OutcomeOf, Fair;
      told := map[];
      ghost var was, a := waiters, from;
      for i := 0 to |es|
        invariant (i > 0 ==> lastApplied == a + i) && (forall k :: k in told <==> k in was && a < k <= a + i)
        invariant forall j :: 0 <= j < i && a + 1 + j in told ==> Fair(was[a + 1 + j], es[j].data, ok, told[a + 1 + j])
        invariant (forall k :: k in waiters <==> k in was && k !in told) && forall k :: k in waiters ==> waiters[k] == was[k]
      {
        lastApplied := es[i].index;
        if lastApplied in waiters {
          FairOutcome(waiters[lastApplied], es[i].data, ok);
          told := told[lastApplied := OutcomeOf(waiters[lastApplied], es[i].data, ok)];
          waiters := waiters - {lastApplied};
        }
      }
    }

    /**
     * applyCommitted.  What the node hands out goes to the engine as one batch;
     * `lastApplied` moves on even when the engine refuses it.
     */
    method ApplyCommitted(n: Node, levels: Levels) returns (told: map<nat, Outcome>)
      requires eng.Valid() && eng.immutable == null && LogOk(n.log) && this !in eng.mem.repr
      requires AllFit(RecordsFor(Effects(Datas(EntriesIn(n.log, lastApplied, n.commitIndex))), eng.nextSeq))
      modifies this`lastApplied, this`waiters, eng, eng.dir, eng.mem.repr
      ensures eng.Valid() && eng.flushErr == old(eng.flushErr)
      ensures this !in eng.mem.repr && (eng.immutable != null ==> this !in eng.immutable.repr)
      ensures var from, es := if old(lastApplied) < Base(n.log) then Base(n.log) else old(lastApplied), EntriesIn(n.log, old(lastApplied), n.commitIndex);
              && lastApplied == (if es == [] then old(lastApplied) else from + |es|)
              && (n.commitIndex <= LastIndex(n.log) && Base(n.log) <= old(lastApplied) ==>
                    lastApplied == if old(lastApplied) < n.commitIndex then n.commitIndex else old(lastApplied))
              && eng.hist == (if old(eng.flushErr) then old(eng.hist) else old(eng.hist) + Effects(Datas(es)))
              && Informed(es, from, old(waiters), waiters, told, !old(eng.flushErr) || Effects(Datas(es)) == [])
      ensures fresh(eng.mem.repr - old(eng.mem.repr)) && eng.nextSeq <= old(eng.nextSeq) + n.commitIndex && (old(eng.Lone()) ==> eng.Lone())
    {
      hide DecodeCommand, Effects, OutcomeOf, Good, LogOk, AllFit, EntriesIn, Memtable.Valid, Written, LayerOf, Informed, Datas, RecordsFor, Engine.Abs, Engine.Lone;
      told := map[];
      ghost var from := if lastApplied < Base(n.log) then Base(n.log) else lastApplied;
      NoneInformed(from, waiters, true);
      NothingHanded(n, lastApplied);
      EntriesNumbered(n, lastApplied);
      EntriesShort(n, lastApplied);
      if lastApplied >= n.commitIndex { return; }
      var es := EntriesIn(n.log, lastApplied, n.commitIndex);
      if es == [] { return; }
      told := ApplyAndTell(es, levels, from);
    }

    /** One batch for the engine, then its clients. */
    method ApplyAndTell(es: seq<Entry>, levels: Levels, ghost from: nat) returns (told: map<nat, Outcome>)
      requires eng.Valid() && eng.immutable == null && this !in eng.mem.repr && AllFit(RecordsFor(Effects(Datas(es)), eng.nextSeq))
      requires es != [] && forall i :: 0 <= i < |es| ==> es[i].index == from + 1 + i
      modifies this`lastApplied, this`waiters, eng, eng.dir, eng.mem.repr
      ensures eng.Valid() && eng.flushErr == old(eng.flushErr) && lastApplied == from + |es|
      ensures this !in eng.mem.repr && (eng.immutable != null ==> this !in eng.immutable.repr)
      ensures eng.hist == if eng.flushErr then old(eng.hist) else old(eng.hist) + Effects(Datas(es))
      ensures Informed(es, from, old(waiters), waiters, told, !old(eng.flushErr) || Effects(Datas(es)) == [])
      ensures fresh(eng.mem.repr - old(eng.mem.repr)) && eng.nextSeq <= old(eng.nextSeq) + |es| && (old(eng.Lone()) ==> eng.Lone())
    {
      hide DecodeCommand, Effects, Good, AllFit, Informed, Datas, RecordsFor, Engine.Valid, Engine.Abs, Engine.Lone, OutcomeOf;
      var ok := ApplyEntries(es, levels);
      told := Notify(es, ok, from);
    }

    /** The entries as one batch. */
    method ApplyEntries(es: seq<Entry>, levels: Levels) returns (ok: bool)
      requires eng.Valid() && eng.immutable == null && this !in eng.mem.repr && AllFit(RecordsFor(Effects(Datas(es)), eng.nextSeq))
      modifies eng, eng.dir, eng.mem.repr
      ensures eng.Valid() && eng.flushErr == old(eng.flushErr) && ok == (!eng.flushErr || Effects(Datas(es)) == [])
      ensures eng.hist == if eng.flushErr then old(eng.hist) else old(eng.hist) + Effects(Datas(es))
      ensures this !in eng.mem.repr && (eng.immutable != null ==> this !in eng.immutable.repr)
      ensures fresh(eng.mem.repr - old(eng.mem.repr)) && eng.nextSeq <= old(eng.nextSeq) + |es| && (old(eng.Lone()) ==> eng.Lone())
    {
      hide DecodeCommand, Effects, Possible, After, Good, Memtable.Valid, AllFit, Engine.Lone;
      EffectsShort(Datas(es));
      var ops := DecodeAll(es);
      ok := true;
      if ops != [] { ok := eng.ApplyBatch(ops, levels); }
    }

    /** The indices ProposeBatch gave out, each with the payload its client proposed. */
    method Register(indices: seq<nat>, datas: seq<Bytes>)
      requires |indices| == |datas| && forall i, j :: 0 <= i < j < |indices| ==> indices[i] != indices[j]
      modifies this`waiters
      ensures forall i :: 0 <= i < |indices| ==> indices[i] in waiters && waiters[indices[i]] == datas[i]
      ensures forall k :: k !in indices ==> (k in waiters <==> k in old(waiters)) && (k in waiters ==> waiters[k] == old(waiters)[k])
    {
      for i := 0 to |indices|
        invariant forall j :: 0 <= j < i ==> indices[j] in waiters && waiters[indices[j]] == datas[j]
        invariant forall k :: k !in indices ==> (k in waiters <==> k in old(waiters)) && (k in waiters ==> waiters[k] == old(waiters)[k])
      {
        waiters := waiters[indices[i] := datas[i]];
      }
    }

    /** maybeSnapshot; None stands for a panic of the node's CreateSnapshot. */
    method MaybeSnapshot(n: Node) returns (taken: Option<Bytes>, node: Option<Node>, ghost ps: seq<Pair>)
      requires eng.Valid() && LogOk(n.log) && this !in eng.mem.repr && (eng.immutable != null ==> this !in eng.immutable.repr)
      modifies this`lastSnapshotIndex
      ensures eng.Valid() && eng.Now() == old(eng.Now())
      ensures taken.Some? <==> Due(snapshotThreshold, old(lastSnapshotIndex), lastApplied)
      ensures taken.Some? ==> taken.value == EncodePairs(ps) && Represents(ps, View(eng.Now()))
      ensures node == if taken.None? then Some(n) else Created(n, lastApplied, taken.value)
      ensures lastSnapshotIndex == if taken.Some? && node.Some? && Base(n.log) < lastApplied <= n.commitIndex then lastApplied else old(lastSnapshotIndex)
    {
      hide Represents, View, Good, Memtable.Valid, Written, LayerOf, EncodePairs, LogOk, AfterCompact;
      taken, node, ps := None, Some(n), [];
      if snapshotThreshold == 0 || lastApplied <= lastSnapshotIndex || lastApplied - lastSnapshotIndex < snapshotThreshold { return; }
      var data;
      data, ps := TakeSnapshot(eng);
      taken, node := Some(data), Created(n, lastApplied, data);
      if node.Some? && Base(n.log) < lastApplied <= n.commitIndex { lastSnapshotIndex := lastApplied; }
    }

    /** The confirmed reads that someone waits for. */
    method AnswerReads(rs: seq<ReadState>) returns (answered: map<nat, nat>)
      requires eng.Valid() && this !in eng.mem.repr && (eng.immutable != null ==> this !in eng.immutable.repr)
      modifies this`pendingReads
      ensures eng.Valid() && eng.Now() == old(eng.Now())
      ensures Resolved(answered, old(pendingReads), rs) && pendingReads == old(pendingReads) - answered.Keys
    {
      hide Good, Memtable.Valid, Written, LayerOf;
      answered := map[];
      for i := 0 to |rs|
        invariant forall c :: c in answered <==> c in old(pendingReads) && exists j :: 0 <= j < i && rs[j].ctx == c
        invariant forall c :: c in answered ==> exists j :: 0 <= j < i && rs[j] == ReadState(answered[c], c)
        invariant pendingReads == old(pendingReads) - answered.Keys
      {
        if rs[i].ctx in pendingReads {
          pendingReads := pendingReads - {rs[i].ctx};
          answered := answered[rs[i].ctx := rs[i].index];
        }
      }
    }

    /** A received snapshot replaces the engine's contents; one that cannot be restored is passed over. */
    method RestoreReceived(snap: Option<Snapshot>)
      requires eng.Valid() && eng.immutable == null && this !in eng.mem.repr
      modifies this`lastApplied, this`lastSnapshotIndex, eng, eng.dir
      ensures eng.Valid() && eng.immutable == null && this !in eng.mem.repr && eng.nextSeq == old(eng.nextSeq)
      ensures eng.mem == old(eng.mem) || fresh(eng.mem.repr)
      ensures snap.Some? && Restorable(snap.value.data) ==>
        lastApplied == lastSnapshotIndex == snap.value.lastIndex && !eng.flushErr && Restored(snap.value.data, eng.hist)
      ensures !(snap.Some? && Restorable(snap.value.data)) ==>
        lastApplied == old(lastApplied) && lastSnapshotIndex == old(lastSnapshotIndex) && eng.hist == old(eng.hist) && eng.flushErr == old(eng.flushErr)
      ensures old(eng.Lone()) ==> eng.Lone()
    {
      hide Represents, SameAnswers, DecodePairs, DistinctKeys, View, Good, Memtable.Valid, Written, Engine.Lone;
      if snap.None? { return; }
      var ok := RestoreSnapshot(eng, snap.value.data);
      if ok {
        OpenView(eng.crc, eng.Abs());
        lastApplied, lastSnapshotIndex := snap.value.lastIndex, snap.value.lastIndex;
      }
    }

    /** The part of pump that brings the engine up to the commit index. */
    method CatchUp(n: Node, levels: Levels) returns (told: map<nat, Outcome>, ghost start: nat, ghost base: seq<Op>)
      requires eng.Valid() && eng.immutable == null && this !in eng.mem.repr && Roomy(n, eng.nextSeq)
      modifies this`lastApplied, this`lastSnapshotIndex, this`waiters, eng, eng.dir, eng.mem.repr
      ensures eng.Valid()
      ensures this !in eng.mem.repr && (eng.immutable != null ==> this !in eng.immutable.repr)
      ensures LogOk(n.log) && Caught(n, Place(old(lastApplied), old(eng.hist), old(eng.flushErr)), start, base, Place(lastApplied, eng.hist, eng.flushErr))
      ensures Told(n, start, old(waiters), waiters, told, eng.flushErr) && Recorded(base, eng.hist, old(waiters), told)
      ensures fresh(eng.mem.repr - old(eng.mem.repr)) && eng.nextSeq <= old(eng.nextSeq) + n.commitIndex && (old(eng.Lone()) ==> eng.Lone())
      ensures lastSnapshotIndex == Mark(n, old(lastSnapshotIndex))
    {
      hide Represents, SameAnswers, DecodePairs, DistinctKeys, Good, Memtable.Valid, Written, Effects, Datas, EntriesIn, LogOk, AllFit, Informed,
           Restored, Restorable, Engine.Abs, Engine.Valid, Engine.Lone, Engine.Now, RecordsFor, Roomy, Recorded, View, LayerOf, Fair, Caught, Told;
      ghost var place := Place(lastApplied, eng.hist, eng.flushErr);
      RestoreReceived(n.toApply);
      start, base := lastApplied, eng.hist;
      ghost var from := Place(start, base, eng.flushErr);
      RoomyAt(n, eng.nextSeq, start);
      ghost var was := waiters;
      told := ApplyCommitted(n, levels);
      CaughtNow(n, place, from, Place(lastApplied, eng.hist, eng.flushErr));
      ToldNow(n, start, was, waiters, told, eng.flushErr);
      ToldRecorded(n, start, was, waiters, told, eng.flushErr, base, eng.hist);
    }

    /**
     * pump on a node that has handled an event.  Persist leaves it as `RaftNode.Advance` does (see
     * `RaftPersistence.Persist`); a received snapshot is restored, the messages go out, what is committed
     * is applied, then a snapshot may be taken, then reads are answered.  With the log reaching back to
     * what was applied, every read answered is of an index the engine has applied.
     */
    method Pump(n: Node, levels: Levels)
      returns (sent: seq<Message>, node: Option<Node>, told: map<nat, Outcome>, taken: Option<Bytes>, answered: map<nat, nat>,
               ghost start: nat, ghost base: seq<Op>, ghost ps: seq<Pair>)
      requires eng.Valid() && eng.immutable == null && this !in eng.mem.repr && Roomy(n, eng.nextSeq)
      modifies this`lastApplied, this`lastSnapshotIndex, this`waiters, this`pendingReads, eng, eng.dir, eng.mem.repr
      ensures eng.Valid() && sent == n.msgs
      ensures LogOk(n.log) && Caught(n, Place(old(lastApplied), old(eng.hist), old(eng.flushErr)), start, base, Place(lastApplied, eng.hist, eng.flushErr))
      ensures Told(n, start, old(waiters), waiters, told, eng.flushErr) && Recorded(base, eng.hist, old(waiters), told)
      ensures this !in eng.mem.repr && (eng.immutable != null ==> this !in eng.immutable.repr)
      ensures taken.Some? ==> taken.value == EncodePairs(ps) && Represents(ps, View(eng.Now()))
      ensures node == if taken.None? then Some(RaftNode.Advance(n)) else Created(RaftNode.Advance(n), lastApplied, taken.value)
      ensures taken.Some? <==> Due(snapshotThreshold, Mark(n, old(lastSnapshotIndex)), lastApplied)
      ensures lastSnapshotIndex ==
                if taken.Some? && node.Some? && Base(n.log) < lastApplied <= n.commitIndex then lastApplied else Mark(n, old(lastSnapshotIndex))
      ensures Resolved(answered, old(pendingReads), if node.Some? then n.readStates else []) && pendingReads == old(pendingReads) - answered.Keys
      ensures fresh(eng.mem.repr - old(eng.mem.repr)) && eng.nextSeq <= old(eng.nextSeq) + n.commitIndex && (old(eng.Lone()) ==> eng.Lone())
    {
      hide Represents, SameAnswers, DecodePairs, DistinctKeys, Good, Memtable.Valid, Written, Effects, Datas, EntriesIn, LogOk, AllFit, Informed,
           Restored, Restorable, Engine.Abs, Engine.Valid, Engine.Lone, View, RecordsFor, EncodePairs, Roomy, Created, Caught, Resolved, Told, Recorded, Due, Mark;
      RoomyAt(n, eng.nextSeq, 0);
      sent := n.msgs;
      told, start, base := CatchUp(n, levels);
      var after := RaftNode.Advance(n);
      node, taken, answered, ps := Settle(after, n.readStates);
    }

    /** The rest of pump: a snapshot if one is due, then the reads. */
    method Settle(n: Node, rs: seq<ReadState>) returns (node: Option<Node>, taken: Option<Bytes>, answered: map<nat, nat>, ghost ps: seq<Pair>)
      requires eng.Valid() && LogOk(n.log) && this !in eng.mem.repr && (eng.immutable != null ==> this !in eng.immutable.repr)
      modifies this`lastSnapshotIndex, this`pendingReads
      ensures eng.Valid() && eng.Now() == old(eng.Now())
      ensures taken.Some? ==> taken.value == EncodePairs(ps) && Represents(ps, View(eng.Now()))
      ensures node == if taken.None? then Some(n) else Created(n, lastApplied, taken.value)
      ensures taken.Some? <==> Due(snapshotThreshold, old(lastSnapshotIndex), lastApplied)
      ensures lastSnapshotIndex == if taken.Some? && node.Some? && Base(n.log) < lastApplied <= n.commitIndex then lastApplied else old(lastSnapshotIndex)
      ensures Resolved(answered, old(pendingReads), if node.Some? then rs else []) && pendingReads == old(pendingReads) - answered.Keys
    {
      hide Represents, Good, Memtable.Valid, LogOk, Engine.Abs, Engine.Valid, View, EncodePairs, Created, Resolved, Due;
      taken, node, ps := MaybeSnapshot(n);
      answered := AnswerReads(if node.Some? then rs else []);
    }

    /**
     * One round of a server whose engine takes writes, seen against the committed log:
     * the replica it is moves on to the commit index, and any snapshot it takes is one
     * from which another server may go on.
     */
    method Round(n: Node, levels: Levels, ghost log: seq<Bytes>, ghost high: nat)
      returns (sent: seq<Message>, node: Node, told: map<nat, Outcome>, taken: Option<Bytes>, answered: map<nat, nat>, ghost start: nat, ghost top: nat)
      requires eng.Valid() && eng.immutable == null && !eng.flushErr && this !in eng.mem.repr && Serves(n, log, lastApplied) && Roomy(n, eng.nextSeq)
      requires Catching(log, Replica(View(eng.Now()), lastApplied, high))
      modifies this`lastApplied, this`lastSnapshotIndex, this`waiters, this`pendingReads, eng, eng.dir, eng.mem.repr
      ensures eng.Valid() && !eng.flushErr && LogOk(n.log) && lastApplied >= n.commitIndex && sent == n.msgs
      ensures node == if taken.None? then RaftNode.Advance(n) else AfterCompact(RaftNode.Advance(n), lastApplied, taken.value)
      ensures Catching(log, Replica(View(eng.Now()), lastApplied, top))
      ensures lastApplied >= top ==> lastApplied <= |log| && SameAnswers(View(eng.Now()), Folded(log, lastApplied))
      ensures n.toApply.None? ==> top == if lastApplied > high then lastApplied else high
      ensures taken.Some? && |taken.value| < TwoTo32 ==> Resumable(log, taken.value, lastApplied)
      ensures ReadsUpTo(n.readStates, n.commitIndex) ==> AnswersUpTo(answered, lastApplied)
      ensures Resolved(answered, old(pendingReads), n.readStates) && pendingReads == old(pendingReads) - answered.Keys
      ensures start == (if n.toApply.Some? then n.toApply.value.lastIndex else old(lastApplied))
      ensures lastApplied == (if start < n.commitIndex then n.commitIndex else start)
      ensures Answers(log, start, lastApplied, old(waiters), waiters, told)
      ensures taken.Some? <==> Due(snapshotThreshold, if n.toApply.Some? then n.toApply.value.lastIndex else old(lastSnapshotIndex), lastApplied)
      ensures LogOk(node.log) && Base(node.log) <= lastApplied
      ensures this !in eng.mem.repr && (eng.immutable != null ==> this !in eng.immutable.repr)
      ensures fresh(eng.mem.repr - old(eng.mem.repr)) && eng.nextSeq <= old(eng.nextSeq) + |log| && (old(eng.Lone()) ==> eng.Lone())
    {
      hide Represents, SameAnswers, DecodePairs, EncodePairs, DistinctKeys, Good, Memtable.Valid, Written, Effects, Datas, EntriesIn, LogOk, AllFit,
           Informed, Restored, Restorable, Engine.Abs, Engine.Valid, Engine.Lone, View, RecordsFor, Catching, Resumable, Hands, Serves, Folded, Roomy, Created, Resolved, ReadsUpTo, AnswersUpTo, Told, Answers, Recorded, Due, AfterCompact, Caught, Mark;
      ViewIsHist(eng);
      ServesShape(n, log, lastApplied);
      ghost var base, ps;
      var next;
      ghost var place := Place(lastApplied, eng.hist, false);
      sent, next, told, taken, answered, start, base, ps := Pump(n, levels);
      CaughtAt(n, log, place, start, base, Place(lastApplied, eng.hist, eng.flushErr));
      CreatedHere(RaftNode.Advance(n), lastApplied, if taken.Some? then taken.value else []);
      node := next.value;
      ghost var from := high;
      if n.toApply.Some? { from := ResumedAt(log, n.toApply.value.data, n.toApply.value.lastIndex, base); }
      ViewIsHist(eng);
      top := AppliedTo(log, n, base, start, from);
      ToldByLog(n, log, start, old(waiters), waiters, told);
      ResolvedWithin(answered, old(pendingReads), n.readStates, n.commitIndex, lastApplied);
      if lastApplied >= top { CaughtUp(log, Replica(View(eng.Now()), lastApplied, top)); }
      if taken.Some? && |taken.value| < TwoTo32 { TakenResumable(log, ps, View(eng.Now()), lastApplied, top); }
    }
  }

  /** Under a node that serves it, a server that takes writes catches up from a received snapshot or from where it was. */
  lemma CaughtAt(n: Node, log: seq<Bytes>, was: Place, start: nat, base: seq<Op>, now: Place)
    requires LogOk(n.log) && Serves(n, log, was.applied) && !was.failed && Caught(n, was, start, base, now)
    ensures start == (if n.toApply.Some? then n.toApply.value.lastIndex else was.applied) && Base(n.log) <= start
    ensures now.applied == (if start < n.commitIndex then n.commitIndex else start) && !now.failed
    ensures now.hist == base + Effects(Datas(EntriesIn(n.log, start, n.commitIndex)))
    ensures if n.toApply.Some? then Restored(n.toApply.value.data, base) else base == was.hist
    ensures forall mark: nat :: Mark(n, mark) == if n.toApply.Some? then n.toApply.value.lastIndex else mark
  {
    hide LogOk, Hands, Serves, Resumable, Restorable, Restored, Effects, Datas, EntriesIn;
    ServesShape(n, log, was.applied);
  }

  lemma CaughtNow(n: Node, was: Place, from: Place, now: Place)
    requires LogOk(n.log)
    requires n.toApply.Some? && Restorable(n.toApply.value.data) ==>
      from.applied == n.toApply.value.lastIndex && !from.failed && Restored(n.toApply.value.data, from.hist)
    requires !(n.toApply.Some? && Restorable(n.toApply.value.data)) ==> from == was
    requires now.failed == from.failed && now.hist == if from.failed then from.hist else from.hist + Effects(Datas(EntriesIn(n.log, from.applied, n.commitIndex)))
    requires n.commitIndex <= LastIndex(n.log) && Base(n.log) <= from.applied ==>
      now.applied == if from.applied < n.commitIndex then n.commitIndex else from.applied
    ensures Caught(n, was, from.applied, from.hist, now)
  {
    hide LogOk, EntriesIn, Effects, Datas, Restorable, Restored;
  }

  lemma ToldNow(n: Node, start: nat, was: map<nat, Bytes>, now: map<nat, Bytes>, told: map<nat, Outcome>, failed: bool)
    requires LogOk(n.log)
    requires var es := EntriesIn(n.log, start, n.commitIndex);
             Informed(es, if start < Base(n.log) then Base(n.log) else start, was, now, told, !failed || Effects(Datas(es)) == [])
    ensures Told(n, start, was, now, told, failed)
  {
    hide LogOk, EntriesIn, Effects, Datas, Informed;
  }

  lemma ToldRecorded(n: Node, start: nat, was: map<nat, Bytes>, now: map<nat, Bytes>, told: map<nat, Outcome>, failed: bool, base: seq<Op>, hist: seq<Op>)
    requires LogOk(n.log) && Told(n, start, was, now, told, failed)
    requires hist == if failed then base else base + Effects(Datas(EntriesIn(n.log, start, n.commitIndex)))
    ensures Recorded(base, hist, was, told)
  {
    hide LogOk, EntriesIn, Effects, Datas, Informed, Recorded;
    var es := EntriesIn(n.log, start, n.commitIndex);
    assert base + [] == base;
    InformedRecorded(es, if start < Base(n.log) then Base(n.log) else start, was, now, told, !failed || Effects(Datas(es)) == [], base, hist);
  }

  lemma CreatedHere(n: Node, index: nat, data: Bytes)
    requires LogOk(n.log) && n.commitIndex <= LastIndex(n.log)
    ensures !CompactPanics(n, index) && Created(n, index, data) == Some(AfterCompact(n, index, data))
    ensures var log := AfterCompact(n, index, data).log; LogOk(log) && Base(log) <= if Base(n.log) < index then index else Base(n.log)
  {
  }

  /**
   * Starting a server over a recovered engine: a snapshot the Raft node persisted is restored first,
   * and a failure to do so is fatal; otherwise the log is replayed from the beginning.
   */
  method Start(e: Engine, snap: Option<Snapshot>, snapshotThreshold: nat, ghost log: seq<Bytes>, ghost high: nat)
    returns (srv: Server?, ghost top: nat)
    requires e.Valid() && e.immutable == null && !e.flushErr && Catching(log, Replica(View(e.Now()), 0, high))
    requires snap.Some? && Restorable(snap.value.data) ==> Resumable(log, snap.value.data, snap.value.lastIndex)
    modifies e, e.dir
    ensures e.Valid() && (srv == null <==> snap.Some? && !Restorable(snap.value.data))
    ensures srv != null ==>
      && fresh(srv) && srv.eng == e && !e.flushErr && srv.lastApplied == (if snap.Some? then snap.value.lastIndex else 0)
      && e.immutable == null && srv !in e.mem.repr && Catching(log, Replica(View(e.Now()), srv.lastApplied, top))
      && srv.waiters == map[] && srv.pendingReads == {} && srv.lastSnapshotIndex == srv.lastApplied && srv.snapshotThreshold == snapshotThreshold
    ensures (e.mem == old(e.mem) && e.mem.repr == old(e.mem.repr)) || fresh(e.mem.repr)
    ensures e.nextSeq == old(e.nextSeq) && (old(e.Lone()) ==> e.Lone())
  {
    hide Represents, SameAnswers, DecodePairs, DistinctKeys, View, Good, Memtable.Valid, Written, Catching, Resumable, Engine.Lone;
    srv, top := null, high;
    if snap.Some? {
      var ok := RestoreSnapshot(e, snap.value.data);
      if !ok { return; }
      ViewIsHist(e);
      top := ResumedAt(log, snap.value.data, snap.value.lastIndex, e.hist);
    }
    srv := new Server(e, snapshotThreshold);
    if snap.Some? && snap.value.lastIndex > 0 { srv.Seed(snap.value.lastIndex); }
  }

  /** How far the server has applied before the k-th of its node's rounds. */
  function Reached(snap: Option<Snapshot>, rounds: seq<Node>, k: nat): nat
    requires k <= |rounds|
    decreases k, 0
  {
    if k == 0 then if snap.Some? then snap.value.lastIndex else 0
    else
      var from := From(snap, rounds, k - 1);
      if from < rounds[k - 1].commitIndex then rounds[k - 1].commitIndex else from
  }

  /** And where that round starts from. */
  function From(snap: Option<Snapshot>, rounds: seq<Node>, k: nat): nat
    requires k < |rounds|
    decreases k, 1
  {
    if rounds[k].toApply.Some? then rounds[k].toApply.value.lastIndex else Reached(snap, rounds, k)
  }

  lemma ReachedNext(snap: Option<Snapshot>, rounds: seq<Node>, k: nat)
    requires k < |rounds|
    ensures From(snap, rounds, k) == if rounds[k].toApply.Some? then rounds[k].toApply.value.lastIndex else Reached(snap, rounds, k)
    ensures var from := From(snap, rounds, k); Reached(snap, rounds, k + 1) == if from < rounds[k].commitIndex then rounds[k].commitIndex else from
  {
  }

  lemma ReachedFirst(snap: Option<Snapshot>, rounds: seq<Node>)
    ensures Reached(snap, rounds, 0) == if snap.Some? then snap.value.lastIndex else 0
  {
  }

  /** In every round, sequence numbers have room for as many entries as each round before may have brought. */
  ghost predicate AllRoomy(rounds: seq<Node>, first: nat, size: nat) {
    forall k, q: nat :: 0 <= k < |rounds| && q <= first + k * size ==> Roomy(rounds[k], q)
  }

  lemma RoomyRound(rounds: seq<Node>, first: nat, size: nat, k: nat, q: nat)
    requires AllRoomy(rounds, first, size) && k < |rounds| && q <= first + k * size
    ensures Roomy(rounds[k], q) && first + (k + 1) * size == first + k * size + size
  {
    hide Roomy;
  }

  /** The indices a batch of proposals was given, each with its client's payload. */
  datatype Batch = Batch(indices: seq<nat>, datas: seq<Bytes>)

  predicate BatchOk(b: Batch) { |b.indices| == |b.datas| && forall i, j :: 0 <= i < j < |b.indices| ==> b.indices[i] != b.indices[j] }

  /** A batch's clients wait too, and whoever else was waiting still is. */
  ghost predicate Joined(before: map<nat, Bytes>, b: Batch, was: map<nat, Bytes>) {
    && (forall i :: 0 <= i < |b.indices| && i < |b.datas| ==> b.indices[i] in was && was[b.indices[i]] == b.datas[i])
    && forall k :: k !in b.indices ==> (k in was <==> k in before) && (k in was ==> was[k] == before[k])
  }

  /** What a round did for its clients: who waited before and after, and from where to where it applied. */
  datatype Turn = Turn(was: map<nat, Bytes>, now: map<nat, Bytes>, told: map<nat, Outcome>)

  ghost function Waiting(turns: seq<Turn>): map<nat, Bytes> { if turns == [] then map[] else turns[|turns| - 1].now }

  /** Every round let its batch's clients wait, and told exactly those whose index it applied. */
  ghost predicate Turns(log: seq<Bytes>, snap: Option<Snapshot>, rounds: seq<Node>, batches: seq<Batch>, turns: seq<Turn>) {
    && |turns| <= |rounds| == |batches|
    && forall k :: 0 <= k < |turns| ==>
         && Joined(Waiting(turns[..k]), batches[k], turns[k].was)
         && Answers(log, From(snap, rounds, k), Reached(snap, rounds, k + 1), turns[k].was, turns[k].now, turns[k].told)
  }

  lemma NoTurns(log: seq<Bytes>, snap: Option<Snapshot>, rounds: seq<Node>, batches: seq<Batch>)
    requires |batches| == |rounds|
    ensures Turns(log, snap, rounds, batches, []) && Waiting([]) == map[]
  {
  }

  lemma OneMoreTurn(log: seq<Bytes>, snap: Option<Snapshot>, rounds: seq<Node>, batches: seq<Batch>, turns: seq<Turn>, t: Turn)
    requires Turns(log, snap, rounds, batches, turns) && |turns| < |rounds|
    requires Joined(Waiting(turns), batches[|turns|], t.was)
    requires Answers(log, From(snap, rounds, |turns|), Reached(snap, rounds, |turns| + 1), t.was, t.now, t.told)
    ensures Turns(log, snap, rounds, batches, turns + [t]) && Waiting(turns + [t]) == t.now
  {
    hide Joined, Answers, Reached, From;
    var more := turns + [t];
    forall k | 0 <= k < |more|
      ensures Joined(Waiting(more[..k]), batches[k], more[k].was)
      ensures Answers(log, From(snap, rounds, k), Reached(snap, rounds, k + 1), more[k].was, more[k].now, more[k].told)
    {
      assert more[..k] == turns[..k];
      if k == |turns| { assert turns[..k] == turns; }
    }
  }

  /** Proposals are given indices past what is applied, and the log is never skipped. */
  ghost predicate OnTime(snap: Option<Snapshot>, rounds: seq<Node>, batches: seq<Batch>) {
    |batches| == |rounds| && forall k :: 0 <= k < |rounds| ==>
      rounds[k].toApply.None? && forall i :: 0 <= i < |batches[k].indices| ==> batches[k].indices[i] > Reached(snap, rounds, k)
  }

  /** Then nobody is left waiting for an index that has been applied. */
  lemma {:induction false} NobodyForgotten(log: seq<Bytes>, snap: Option<Snapshot>, rounds: seq<Node>, batches: seq<Batch>, turns: seq<Turn>)
    requires Turns(log, snap, rounds, batches, turns) && OnTime(snap, rounds, batches)
    ensures forall k :: k in Waiting(turns) ==> k > Reached(snap, rounds, |turns|)
    decreases |turns|
  {
    hide Answers, Joined, Reached, From;
    if turns != [] {
      var n := |turns| - 1;
      FewerTurns(log, snap, rounds, batches, turns);
      NobodyForgotten(log, snap, rounds, batches, turns[..n]);
      ReachedNext(snap, rounds, n);
      StillWaiting(log, Reached(snap, rounds, n), Reached(snap, rounds, n + 1), Waiting(turns[..n]), batches[n], turns[n]);
    }
  }

  lemma FewerTurns(log: seq<Bytes>, snap: Option<Snapshot>, rounds: seq<Node>, batches: seq<Batch>, turns: seq<Turn>)
    requires Turns(log, snap, rounds, batches, turns) && turns != []
    ensures Turns(log, snap, rounds, batches, turns[..|turns| - 1])
  {
    hide Answers, Joined, Reached, From, Waiting;
    var n := |turns| - 1;
    assert forall k :: 0 <= k < n ==> turns[..n][..k] == turns[..k];
  }

  lemma StillWaiting(log: seq<Bytes>, from: nat, to: nat, before: map<nat, Bytes>, b: Batch, t: Turn)
    requires Joined(before, b, t.was) && Answers(log, from, to, t.was, t.now, t.told)
    requires (forall k :: k in before ==> k > from) && forall i :: 0 <= i < |b.indices| ==> b.indices[i] > from
    ensures forall k :: k in t.now ==> k > to
  {
    hide Fair;
  }

  /** Each of the snapshots, as of its index, is one from which a replica may go on. */
  ghost predicate AllResumable(log: seq<Bytes>, made: seq<(Bytes, nat)>) {
    forall i :: 0 <= i < |made| && |made[i].0| < TwoTo32 ==> Resumable(log, made[i].0, made[i].1)
  }

  lemma OneMoreMade(log: seq<Bytes>, made: seq<(Bytes, nat)>, data: Bytes, index: nat)
    requires AllResumable(log, made) && (|data| < TwoTo32 ==> Resumable(log, data, index))
    ensures AllResumable(log, made + [(data, index)])
  {
    hide Resumable;
  }

  /**
   * A server's life: it starts over a recovered engine, lets clients wait, pumps its node round after
   * round, and its engine flushes in between.  Whatever the rounds bring, it is a replica of the committed
   * log that has applied all that its node has committed, it has told exactly the clients whose index it
   * applied, each fairly, and every snapshot it makes is one from which another server may go on.
   */
  method Live(e: Engine, snap: Option<Snapshot>, snapshotThreshold: nat, rounds: seq<Node>, batches: seq<Batch>, levels: Levels,
              ghost log: seq<Bytes>, ghost high: nat)
    returns (srv: Server?, turns: seq<Turn>, made: seq<(Bytes, nat)>, ghost top: nat)
    requires e.Valid() && e.immutable == null && !e.flushErr && e.Lone() && Catching(log, Replica(View(e.Now()), 0, high))
    requires snap.Some? && Restorable(snap.value.data) ==> Resumable(log, snap.value.data, snap.value.lastIndex)
    requires |batches| == |rounds| && forall k :: 0 <= k < |rounds| ==> BatchOk(batches[k]) && Serves(rounds[k], log, Reached(snap, rounds, k))
    requires AllRoomy(rounds, e.nextSeq, |log|)
    modifies e, e.dir, e.mem.repr
    ensures srv == null <==> snap.Some? && !Restorable(snap.value.data)
    ensures srv != null ==>
      && srv.eng == e && e.Valid() && !e.flushErr && srv.lastApplied == Reached(snap, rounds, |rounds|)
      && Catching(log, Replica(View(e.Now()), srv.lastApplied, top))
      && (srv.lastApplied >= top ==> srv.lastApplied <= |log| && SameAnswers(View(e.Now()), Folded(log, srv.lastApplied)))
      && |turns| == |rounds| && Turns(log, snap, rounds, batches, turns) && srv.waiters == Waiting(turns)
    ensures AllResumable(log, made)
  {
    hide Represents, SameAnswers, DecodePairs, DistinctKeys, Good, Memtable.Valid, Written, View, Catching, Resumable, Engine.Abs, Engine.Valid, Engine.Lone,
         Restorable, Serves, Roomy, Folded, AllRoomy, Turns, Joined, Answers, Waiting, BatchOk, Reached, From;
    made, turns := [], [];
    NoTurns(log, snap, rounds, batches);
    assert AllResumable(log, made);
    srv, top := Start(e, snap, snapshotThreshold, log, high);
    if srv == null { return; }
    ReachedFirst(snap, rounds);
    ghost var first := e.nextSeq;
    for k := 0 to |rounds|
      invariant srv.eng == e && fresh(srv) && e.Valid() && !e.flushErr && e.immutable == null && e.Lone() && srv !in e.mem.repr
      invariant fresh(e.mem.repr - old(e.mem.repr)) && e.nextSeq <= first + k * |log|
      invariant srv.lastApplied == Reached(snap, rounds, k) && Catching(log, Replica(View(e.Now()), srv.lastApplied, top))
      invariant |turns| == k && Turns(log, snap, rounds, batches, turns) && srv.waiters == Waiting(turns)
      invariant AllResumable(log, made)
    {
      RoomyRound(rounds, first, |log|, k, e.nextSeq);
      var t, taken;
      t, taken, top := Next(srv, rounds[k], batches[k], levels, log, top);
      ReachedNext(snap, rounds, k);
      OneMoreTurn(log, snap, rounds, batches, turns, t);
      turns := turns + [t];
      if taken.Some? {
        OneMoreMade(log, made, taken.value, srv.lastApplied);
        made := made + [(taken.value, srv.lastApplied)];
      }
    }
    if srv.lastApplied >= top { CaughtUp(log, Replica(View(e.Now()), srv.lastApplied, top)); }
  }

  /** New clients, a round, and the flush it may have set off. */
  method Next(srv: Server, n: Node, b: Batch, levels: Levels, ghost log: seq<Bytes>, ghost high: nat) returns (t: Turn, taken: Option<Bytes>, ghost top: nat)
    requires var e := srv.eng; e.Valid() && e.immutable == null && !e.flushErr && e.Lone() && srv !in e.mem.repr && Roomy(n, e.nextSeq)
    requires BatchOk(b) && Serves(n, log, srv.lastApplied) && Catching(log, Replica(View(srv.eng.Now()), srv.lastApplied, high))
    modifies srv, srv.eng, srv.eng.dir, srv.eng.mem.repr
    ensures var e := srv.eng; e.Valid() && e.immutable == null && !e.flushErr && e.Lone() && srv !in e.mem.repr
    ensures fresh(srv.eng.mem.repr - old(srv.eng.mem.repr)) && srv.eng.nextSeq <= old(srv.eng.nextSeq) + |log|
    ensures var from := if n.toApply.Some? then n.toApply.value.lastIndex else old(srv.lastApplied);
            && srv.lastApplied == (if from < n.commitIndex then n.commitIndex else from)
            && Joined(old(srv.waiters), b, t.was) && Answers(log, from, srv.lastApplied, t.was, t.now, t.told) && srv.waiters == t.now
    ensures Catching(log, Replica(View(srv.eng.Now()), srv.lastApplied, top))
    ensures taken.Some? && |taken.value| < TwoTo32 ==> Resumable(log, taken.value, srv.lastApplied)
  {
    hide Represents, SameAnswers, DecodePairs, DistinctKeys, Good, Memtable.Valid, Written, View, Catching, Resumable, Engine.Abs, Engine.Valid, Engine.Lone,
         Serves, Roomy, Folded, Answers, Resolved;
    srv.Register(b.indices, b.datas);
    var was := srv.waiters;
    var sent, node, told, answered;
    ghost var start;
    sent, node, told, taken, answered, start, top := srv.Round(n, levels, log, high);
    t := Turn(was, srv.waiters, told);
    ViewIsHist(srv.eng);
    if srv.eng.immutable != null {
      var ok := srv.eng.RunFlush(false);
      ViewIsHist(srv.eng);
    }
  }
}

/** A linearizable read, from the request at the leader to the answer of its store. */
module ServerReads {
  import opened Bytes
  import opened RaftTypes
  import opened RaftNode
  import opened RaftCluster
  import opened RaftSteps
  import opened RaftRuns
  import opened RaftReads
  import opened RaftReadBounds
  import opened RaftReadFreshness
  import opened Stores
  import opened Replicas
  import opened ServerLog
  import opened Servers

  /**
   * What a node has handled at any step of a run is what `Servers.Server.Round` asks for: it hands out the
   * committed log, and the reads it surfaces are of indices it has committed.
   */
  lemma HandledHands(states: seq<Cluster>, actions: seq<Action>, i: nat, r: Node)
    requires RaftSafety.Run(states, actions) && i < |actions| && Persists(actions[i]) && Possible(states[i], actions[i])
    requires HandledAt(states[i], actions[i]) == Some(r)
    ensures Hands(r, AppliedLog(states)) && ReadsUpTo(r.readStates, r.commitIndex)
  {
    hide RaftSafety.Run, PossibleRun, AppliedLog, Handled, Possible, Hands;
    RaftSafety.RunPossible(states, actions);
    PossibleStep(states, actions, i);
    SurfacedWithin(states, actions, i, r);
    StepShape(states[i], actions[i]);
    RunHands(states, actions, i + 1, actions[i].v);
    AdvanceHands(r, AppliedLog(states));
  }

  lemma AdvanceHands(r: Node, log: seq<Bytes>)
    requires LogOk(r.log) && Hands(Advance(r), log)
    ensures Hands(r, log)
  {
    hide LogOk, Datas, EntriesIn;
  }

  /** Some node had committed that far by point i of a run. */
  ghost predicate CommittedBy(states: seq<Cluster>, i: nat, k: nat) {
    exists h: nat, w: Id :: h <= i && h < |states| && w in states[h].nodes && k <= states[h].nodes[w].commitIndex
  }

  /**
   * LinearizableGet: once a read is confirmed and its server has applied that far, the answer is that of
   * a prefix of the one committed log, and the prefix covers all that any node had committed by the
   * time of the request.  It is so even if the server restarted before the request and is still
   * replaying: `held` is what its store held then, which some node had committed.
   */
  lemma LinearizableRead(states: seq<Cluster>, actions: seq<Action>, i: nat, j: nat, v: Id, rs: ReadState, held: nat, r: Replica, h: nat, w: Id)
    requires RaftSafety.Run(states, actions) && Answered(states, actions, i, j, v, rs) && NextOwn(states[i].nodes[v])
    requires CommittedBy(states, i, held) && r.high <= (if r.applied > held then r.applied else held)
    requires Catching(AppliedLog(states), r) && rs.index <= r.applied
    requires h <= i && w in states[h].nodes
    ensures states[h].nodes[w].commitIndex <= r.applied <= |AppliedLog(states)|
    ensures SameAnswers(r.store, Folded(AppliedLog(states), r.applied))
  {
    hide RaftSafety.Run, Answered, AppliedLog, Catching, SameAnswers, Folded, NextOwn;
    ReadFresh(states, actions, i, j, v, rs, h, w);
    var g: nat, u: Id :| g <= i && g < |states| && u in states[g].nodes && held <= states[g].nodes[u].commitIndex;
    ReadFresh(states, actions, i, j, v, rs, g, u);
    CaughtUp(AppliedLog(states), r);
  }
}
