/** Client operations as the payloads of log entries. */
module Commands {
  import opened Bytes
  import opened RaftTypes
  import opened LittleEndian
  import opened Stores

  const CmdPut: Byte := 0
  const CmdDelete: Byte := 1

  function EncodeCommand(op: Op): (b: Bytes)
    ensures |b| == 9 + |op.key| + |op.value|
  {
    [if op.deleted then CmdDelete else CmdPut] + Put(4, |op.key|) + op.key + Put(4, |op.value|) + op.value
  }

  /** decodeAndValidateCommand; lengths are compared in 32 bits, and bytes past the value are ignored. */
  function DecodeCommand(b: Bytes): Option<Op> {
    if |b| < 5 then None
    else
      var keyLen := Get(b[1..5]);
      if (|b| - 5) % TwoTo32 < keyLen || |b| - 5 - keyLen < 4 then None
      else
        var off := 9 + keyLen;
        var valLen := Get(b[off - 4..off]);
        if (|b| - off) % TwoTo32 < valLen then None
        else if b[0] == CmdPut || b[0] == CmdDelete then Some(Op(b[5..off - 4], b[off..off + valLen], b[0] == CmdDelete))
        else None
  }

  lemma CommandBack(op: Op)
    requires |EncodeCommand(op)| < TwoTo32
    ensures DecodeCommand(EncodeCommand(op)) == Some(op)
  {
    hide Put, Get;
    var b, off := EncodeCommand(op), 9 + |op.key|;
    assert b[1..5] == Put(4, |op.key|) && b[5..off - 4] == op.key && b[off - 4..off] == Put(4, |op.value|) && b[off..off + |op.value|] == op.value;
    GetPut32(|op.key|);
    GetPut32(|op.value|);
  }

  /** A payload decodes to an operation exactly when it begins with that operation's encoding. */
  lemma CommandExact(b: Bytes, op: Op)
    requires |b| < TwoTo32
    ensures DecodeCommand(b) == Some(op) <==> EncodeCommand(op) <= b
  {
    hide Put, Get;
    if EncodeCommand(op) <= b {
      CommandPrefix(b, op);
    } else if DecodeCommand(b) == Some(op) {
      CommandBegins(b, op);
    }
  }

  lemma CommandPrefix(b: Bytes, op: Op)
    requires |b| < TwoTo32 && EncodeCommand(op) <= b
    ensures DecodeCommand(b) == Some(op)
  {
    hide Put, Get;
    var e, off := EncodeCommand(op), 9 + |op.key|;
    assert e[1..5] == Put(4, |op.key|) && e[5..off - 4] == op.key && e[off - 4..off] == Put(4, |op.value|) && e[off..off + |op.value|] == op.value;
    assert b[..|e|] == e;
    assert b[1..5] == e[1..5] && b[5..off - 4] == e[5..off - 4] && b[off - 4..off] == e[off - 4..off] && b[off..off + |op.value|] == e[off..off + |op.value|];
    GetPut32(|op.key|);
    GetPut32(|op.value|);
  }

  lemma CommandBegins(b: Bytes, op: Op)
    requires |b| < TwoTo32 && DecodeCommand(b) == Some(op)
    ensures EncodeCommand(op) <= b
  {
    hide Put, Get;
    var off := 9 + |op.key|;
    PutGet32(b[1..5]);
    PutGet32(b[off - 4..off]);
    assert b[..off + |op.value|] == [b[0]] + b[1..5] + b[5..off - 4] + b[off - 4..off] + b[off..off + |op.value|];
  }

  /** What committed payloads do to a store, in order; a malformed one does nothing. */
  function Effects(datas: seq<Bytes>): seq<Op> {
    if datas == [] then []
    else
      Effects(datas[..|datas| - 1]) + match DecodeCommand(datas[|datas| - 1]) case Some(op) => [op] case None => []
  }

  lemma {:induction false} EffectsAppend(a: seq<Bytes>, b: seq<Bytes>)
    ensures Effects(a + b) == Effects(a) + Effects(b)
    decreases |b|
  {
    hide DecodeCommand;
    if b == [] {
      assert a + b == a;
    } else {
      assert (a + b)[..|a + b| - 1] == a + b[..|b| - 1];
      EffectsAppend(a, b[..|b| - 1]);
    }
  }

  /** A batch cut short is the effect of a shorter run of entries. */
  lemma {:induction false} EffectsCut(datas: seq<Bytes>, k: nat) returns (m: nat)
    requires k <= |Effects(datas)|
    ensures m <= |datas| && Effects(datas[..m]) == Effects(datas)[..k]
    decreases |datas|
  {
    hide DecodeCommand;
    if k == |Effects(datas)| {
      m := |datas|;
      assert datas[..m] == datas;
    } else {
      m := EffectsCut(datas[..|datas| - 1], k);
      assert datas[..|datas| - 1][..m] == datas[..m];
    }
  }
}

/**
 * Replicas applying one committed log.  A replica restarts from index 0 over a
 * store that already holds more, or from a snapshot; a snapshot may be taken while
 * such a replay is under way.  `high` is the highest index whose effect a store holds.
 */
module Replicas {
  import opened Bytes
  import opened RaftTypes
  import opened LittleEndian
  import opened Stores
  import opened Commands

  datatype Replica = Replica(store: Layer, applied: nat, high: nat)

  datatype System = System(replicas: map<Id, Replica>, snapshots: set<Replica>)

  datatype Move =
    | Apply(v: Id, k: nat)
    | Restart(v: Id)
    | Take(v: Id, snap: Layer)
    | Install(v: Id, r: Replica)

  /** What the first n committed entries make of an empty store. */
  function Folded(log: seq<Bytes>, n: nat): Layer
    requires n <= |log|
  {
    Written(Effects(log[..n]))
  }

  /** What entries a+1 to k do. */
  function Between(log: seq<Bytes>, a: nat, k: nat): Layer
    requires a <= k <= |log|
  {
    Written(Effects(log[a..k]))
  }

  ghost predicate Allowed(log: seq<Bytes>, s: System, m: Move) {
    match m
    case Apply(v, k) => v in s.replicas && s.replicas[v].applied < k <= |log|
    case Restart(v) => v in s.replicas
    case Take(v, snap) => v in s.replicas && SameAnswers(snap, s.replicas[v].store)
    case Install(v, r) => v in s.replicas && r in s.snapshots
  }

  ghost function Moved(log: seq<Bytes>, s: System, m: Move): System
    requires Allowed(log, s, m)
  {
    match m
    case Apply(v, k) =>
      var r := s.replicas[v];
      s.(replicas := s.replicas[v := Replica(r.store + Between(log, r.applied, k), k, if k > r.high then k else r.high)])
    case Restart(v) => s.(replicas := s.replicas[v := s.replicas[v].(applied := 0)])
    case Take(v, snap) => s.(snapshots := s.snapshots + {s.replicas[v].(store := snap)})
    case Install(v, r) => s.(replicas := s.replicas[v := r])
  }

  /** Applying what lies between `applied` and `high` brings the store to the log's first `high` entries. */
  ghost predicate Catching(log: seq<Bytes>, r: Replica) {
    r.applied <= r.high <= |log| && SameAnswers(r.store + Between(log, r.applied, r.high), Folded(log, r.high))
  }

  ghost predicate Sound(log: seq<Bytes>, s: System) {
    (forall v :: v in s.replicas ==> Catching(log, s.replicas[v])) && forall r :: r in s.snapshots ==> Catching(log, r)
  }

  // ------------------------------------------------------------------------ layers

  lemma BetweenSplit(log: seq<Bytes>, a: nat, b: nat, c: nat)
    requires a <= b <= c <= |log|
    ensures Between(log, a, c) == Between(log, a, b) + Between(log, b, c)
  {
    hide Effects, Written;
    assert log[a..c] == log[a..b] + log[b..c];
    EffectsAppend(log[a..b], log[b..c]);
    WrittenAppend(Effects(log[a..b]), Effects(log[b..c]));
  }

  lemma FoldedSplit(log: seq<Bytes>, a: nat, c: nat)
    requires a <= c <= |log|
    ensures Folded(log, c) == Folded(log, a) + Between(log, a, c)
  {
    hide Effects, Written;
    BetweenSplit(log, 0, a, c);
    assert log[0..a] == log[..a] && log[0..c] == log[..c];
  }

  lemma CoverSame(a: Layer, b: Layer, c: Layer)
    requires SameAnswers(a, b)
    ensures SameAnswers(a + c, b + c)
  {
    forall key: Bytes
      ensures Answer(a + c, key) == Answer(b + c, key)
    {
      assert Answer(a, key) == Answer(b, key);
    }
  }

  // ------------------------------------------------------------------------ moves

  lemma ApplyCatching(log: seq<Bytes>, r: Replica, k: nat)
    requires Catching(log, r) && r.applied < k <= |log|
    ensures Catching(log, Replica(r.store + Between(log, r.applied, k), k, if k > r.high then k else r.high))
  {
    hide Between, Folded, SameAnswers;
    var a, h := r.applied, r.high;
    if k <= h {
      BetweenSplit(log, a, k, h);
      CoverAssoc(r.store, Between(log, a, k), Between(log, k, h));
    } else {
      BetweenSplit(log, a, h, k);
      CoverAssoc(r.store, Between(log, a, h), Between(log, h, k));
      CoverSame(r.store + Between(log, a, h), Folded(log, h), Between(log, h, k));
      FoldedSplit(log, h, k);
      NoneBetween(log, k);
      assert r.store + Between(log, a, k) + map[] == r.store + Between(log, a, k);
    }
  }

  lemma NoneBetween(log: seq<Bytes>, k: nat)
    requires k <= |log|
    ensures Between(log, k, k) == map[]
  {
    assert log[k..k] == [];
  }

  /** A batch cut short by a crash has applied a shorter run of entries. */
  lemma CutCatching(log: seq<Bytes>, r: Replica, c: nat, k: nat) returns (high: nat)
    requires Catching(log, r) && r.applied <= c <= |log| && k <= |Effects(log[r.applied..c])|
    ensures Catching(log, Replica(r.store + Written(Effects(log[r.applied..c])[..k]), 0, high))
  {
    hide Effects, Written, Catching;
    CatchingWithin(log, r);
    var m := EffectsCut(log[r.applied..c], k);
    var b := r.applied + m;
    assert log[r.applied..c][..m] == log[r.applied..b];
    if b == r.applied {
      NoneBetween(log, b);
      assert r.store + map[] == r.store;
      RestartCatching(log, r);
      high := r.high;
    } else {
      high := if b > r.high then b else r.high;
      ApplyCatching(log, r, b);
      RestartCatching(log, Replica(r.store + Between(log, r.applied, b), b, high));
    }
  }

  lemma CatchingWithin(log: seq<Bytes>, r: Replica)
    requires Catching(log, r)
    ensures r.applied <= r.high <= |log|
  {
  }

  /** Starting over: whatever the store holds is written again. */
  lemma RestartCatching(log: seq<Bytes>, r: Replica)
    requires Catching(log, r)
    ensures Catching(log, r.(applied := 0))
  {
    hide Effects, Written;
    FoldedSplit(log, r.applied, r.high);
    assert log[0..r.high] == log[..r.high];
    var all := Folded(log, r.high);
    forall key: Bytes
      ensures Answer(r.store + all, key) == Answer(all, key)
    {
      assert Answer(r.store + Between(log, r.applied, r.high), key) == Answer(all, key);
    }
  }

  lemma MoveSound(log: seq<Bytes>, s: System, m: Move)
    requires Sound(log, s) && Allowed(log, s, m)
    ensures Sound(log, Moved(log, s, m))
  {
    hide Catching, Between, SameAnswers;
    match m
    case Apply(v, k) => ApplyCatching(log, s.replicas[v], k);
    case Restart(v) => RestartCatching(log, s.replicas[v]);
    case Take(v, snap) => TakeCatching(log, s.replicas[v], snap);
    case Install(v, r) =>
  }

  lemma TakeCatching(log: seq<Bytes>, r: Replica, snap: Layer)
    requires Catching(log, r) && SameAnswers(snap, r.store)
    ensures Catching(log, r.(store := snap))
  {
    hide Between, Folded;
    CoverSame(snap, r.store, Between(log, r.applied, r.high));
  }

  // ---------------------------------------------------------------------------- runs

  ghost predicate Run(log: seq<Bytes>, states: seq<System>, moves: seq<Move>) {
    && |states| == |moves| + 1 && states[0].snapshots == {}
    && (forall v :: v in states[0].replicas ==> states[0].replicas[v] == Replica(map[], 0, 0))
    && forall i :: 0 <= i < |moves| ==> Allowed(log, states[i], moves[i]) && states[i + 1] == Moved(log, states[i], moves[i])
  }

  lemma EmptyCatching(log: seq<Bytes>)
    ensures Catching(log, Replica(map[], 0, 0))
  {
    assert log[0..0] == [] && log[..0] == [];
  }

  lemma {:induction false} RunSound(log: seq<Bytes>, states: seq<System>, moves: seq<Move>, i: nat)
    requires Run(log, states, moves) && i <= |moves|
    ensures Sound(log, states[i])
  {
    hide Catching, Allowed, Moved;
    if i == 0 {
      EmptyCatching(log);
    } else {
      RunSound(log, states, moves, i - 1);
      MoveSound(log, states[i - 1], moves[i - 1]);
    }
  }

  /** Convergence: a replica that has caught up with its own store answers as the committed log's first `applied` entries say. */
  lemma Converged(log: seq<Bytes>, states: seq<System>, moves: seq<Move>, i: nat, v: Id)
    requires Run(log, states, moves) && i <= |moves| && v in states[i].replicas
    requires states[i].replicas[v].applied >= states[i].replicas[v].high
    ensures states[i].replicas[v].applied <= |log|
    ensures SameAnswers(states[i].replicas[v].store, Folded(log, states[i].replicas[v].applied))
  {
    hide Run, Between, Folded, Allowed, Moved, SameAnswers;
    RunShape(log, states, moves);
    RunSound(log, states, moves, i);
    CaughtUp(log, states[i].replicas[v]);
  }

  /** A replica that has applied all its store holds answers as the log says. */
  lemma CaughtUp(log: seq<Bytes>, r: Replica)
    requires Catching(log, r) && r.applied >= r.high
    ensures r.applied <= |log| && SameAnswers(r.store, Folded(log, r.applied))
  {
    hide Between, Folded, SameAnswers;
    NoneBetween(log, r.high);
    assert r.store + map[] == r.store;
  }

  lemma RunShape(log: seq<Bytes>, states: seq<System>, moves: seq<Move>)
    requires Run(log, states, moves)
    ensures |states| == |moves| + 1
  {
  }

  /** Two that have done so up to the same index cannot be told apart. */
  lemma CaughtUpAgree(log: seq<Bytes>, r: Replica, q: Replica)
    requires Catching(log, r) && Catching(log, q) && r.applied == q.applied >= r.high && q.applied >= q.high
    ensures SameAnswers(r.store, q.store)
  {
    hide Folded, Catching;
    CaughtUp(log, r);
    CaughtUp(log, q);
    forall key: Bytes
      ensures Answer(r.store, key) == Answer(q.store, key)
    {
      assert Answer(r.store, key) == Answer(Folded(log, r.applied), key) == Answer(q.store, key);
    }
  }

  /** At whatever points of a run. */
  lemma ReplicasAgree(log: seq<Bytes>, states: seq<System>, moves: seq<Move>, i: nat, j: nat, v: Id, w: Id)
    requires Run(log, states, moves) && i <= |moves| && j <= |moves| && v in states[i].replicas && w in states[j].replicas
    requires var a, b := states[i].replicas[v], states[j].replicas[w]; a.applied == b.applied >= a.high && b.applied >= b.high
    ensures SameAnswers(states[i].replicas[v].store, states[j].replicas[w].store)
  {
    hide Run, Catching, SameAnswers;
    RunShape(log, states, moves);
    RunSound(log, states, moves, i);
    RunSound(log, states, moves, j);
    CaughtUpAgree(log, states[i].replicas[v], states[j].replicas[w]);
  }

  /**
   * A store that held the log's first `high` entries and has replayed the first `a` of them again
   * answers as those `a` say exactly when every key that only later entries write ends deleted.
   */
  lemma MidReplayExact(log: seq<Bytes>, store: Layer, a: nat, high: nat)
    requires a <= high <= |log| && SameAnswers(store, Folded(log, high))
    ensures SameAnswers(store + Between(log, 0, a), Folded(log, a))
            <==> forall key :: key in Between(log, a, high) && key !in Folded(log, a) ==> Between(log, a, high)[key] == None
  {
    hide Effects, Written;
    var rest, now := Between(log, a, high), Folded(log, a);
    assert log[0..a] == log[..a];
    FoldedSplit(log, a, high);
    forall key: Bytes
      ensures Answer(store + now, key) == Answer(now, key) <==> (key in rest && key !in now ==> rest[key] == None)
    {
      assert Answer(store, key) == Answer(now + rest, key);
    }
    if SameAnswers(store + now, now) {
      forall key | key in rest && key !in now
        ensures rest[key] == None
      {
        assert Answer(store + now, key) == Answer(now, key);
      }
    }
  }

  /** Two writes to two keys, the second of which a store still holds while the first is being replayed. */
  lemma EarlySnapshot(a: Op, b: Op)
    requires !a.deleted && !b.deleted && a.key != b.key && |EncodeCommand(a)| < TwoTo32 && |EncodeCommand(b)| < TwoTo32
    ensures var log := [EncodeCommand(a), EncodeCommand(b)];
            exists states: seq<System>, moves: seq<Move> ::
              && Run(log, states, moves) && |moves| == 4 && moves[3].Take? && 1 in states[3].replicas && states[3].replicas[1].applied == 1
              && Answer(moves[3].snap, b.key) == Some(b.value) && Answer(Folded(log, 1), b.key) == None
  {
    hide EncodeCommand, DecodeCommand, Between, Folded;
    var log := [EncodeCommand(a), EncodeCommand(b)];
    TwoWrites(a, b);
    var s0 := System(map[1 := Replica(map[], 0, 0)], {});
    var s1 := Moved(log, s0, Apply(1, 2));
    var s2 := Moved(log, s1, Restart(1));
    var s3 := Moved(log, s2, Apply(1, 1));
    var snap := s3.replicas[1].store;
    var s4 := Moved(log, s3, Take(1, snap));
    var states, moves := [s0, s1, s2, s3, s4], [Apply(1, 2), Restart(1), Apply(1, 1), Take(1, snap)];
    assert Run(log, states, moves);
  }

  lemma TwoWrites(a: Op, b: Op)
    requires |EncodeCommand(a)| < TwoTo32 && |EncodeCommand(b)| < TwoTo32
    ensures var log := [EncodeCommand(a), EncodeCommand(b)];
            && Between(log, 0, 1) == Folded(log, 1) == map[a.key := EntryOf(a)]
            && Between(log, 0, 2) == map[a.key := EntryOf(a)] + map[b.key := EntryOf(b)]
  {
    hide EncodeCommand, DecodeCommand, Effects, Written;
    var log := [EncodeCommand(a), EncodeCommand(b)];
    OneEffect(a);
    OneEffect(b);
    assert log[0..2] == [EncodeCommand(a)] + [EncodeCommand(b)] && log[0..1] == [EncodeCommand(a)] == log[..1];
    EffectsAppend([EncodeCommand(a)], [EncodeCommand(b)]);
    WrittenAppend([a], [b]);
  }

  lemma OneEffect(op: Op)
    requires |EncodeCommand(op)| < TwoTo32
    ensures Effects([EncodeCommand(op)]) == [op] && Written([op]) == map[op.key := EntryOf(op)]
  {
    hide EncodeCommand, DecodeCommand;
    CommandBack(op);
    assert [EncodeCommand(op)][..0] == [];
    assert [op][..0] == [];
    assert Written([]) == map[];
  }
}
