/** Where the protocol as written stops: a read too early, and entries below the snapshot boundary. */
module RaftLimits {
  import opened Bytes
  import opened RaftTypes
  import opened RaftCore
  import opened RaftNode
  import opened RaftCluster
  import opened RaftFrame
  import opened RaftSteps
  import opened RaftRuns
  import opened RaftStable
  import opened RaftReplication
  import opened RaftInvariant
  import opened RaftSafety
  import opened RaftReads
  import opened RaftReadFreshness
  import opened RaftPolls
  import opened RaftTerms

  // ------------------------------------------------- a read before the first commit of a term

  /** A cluster of the single node 1. */
  function Alone(): Cluster {
    Cluster(map[1 := NewNode(1, [])], map[1 := BlankDisk], {}, map[1 := 1],
            Core({1}, map[1 := 0], map[1 := []], map[], map[], map[], map[], {}, map[], []))
  }

  lemma AloneInitial()
    ensures Initial(Alone())
  {
  }

  lemma LocalEnabled(s: Cluster, a: Action)
    requires Good(s) && a.v in s.nodes && !a.Deliver? && !a.Crash?
    ensures Enabled(s, a)
  {
    hide Good, Formed;
    GoodFormed(s);
  }

  lemma ElectedAlone(n: Node)
    requires n.peers == [] && n.role != Leader && LogOk(n.log) && n.commitIndex == Base(n.log)
    requires LastIndex(n.log) <= Base(n.log) + 1 && n.currentTerm + 1 != LastTermOf(n.log)
    ensures var r := BecomePreCandidate(n);
            && r.role == Leader && r.currentTerm == n.currentTerm + 1 && r.log == n.log && r.commitIndex == n.commitIndex && r.peers == []
            && r.votedFor == n.id && r.snapshot == n.snapshot
  {
  }

  lemma ProposedAlone(n: Node, data: Bytes)
    requires n.peers == [] && n.role == Leader && n.log == [Entry(0, 0, [])] && n.commitIndex == 0 && n.currentTerm > 0
    ensures var r := AfterPropose(n, [data]);
            && r.log == [Entry(0, 0, []), Entry(n.currentTerm, 1, data)] && r.commitIndex == 1 && r.role == Leader
            && r.currentTerm == n.currentTerm && r.peers == [] && r.votedFor == n.votedFor && r.snapshot == n.snapshot
  {
    var p := n.(log := n.log + NewEntries(n.currentTerm, 1, [data]));
    assert p.log == [Entry(0, 0, []), Entry(n.currentTerm, 1, data)];
    assert Committable(p, 1);
  }

  /** One local step of node 1. */
  lemma LocalStep(s: Cluster, a: Action)
    requires Good(s) && 1 in s.nodes && a.v == 1 && !a.Deliver? && !a.Crash? && Persists(a)
    ensures Enabled(s, a) && Good(After(s, a)) && 1 in s.nextReadCtx && LogOk(s.nodes[1].log)
    ensures Handled(s.nodes[1], a, s.nextReadCtx[1]).Some?
    ensures var t, r := After(s, a), Handled(s.nodes[1], a, s.nextReadCtx[1]).value;
            1 in t.nodes && LogOk(r.log) && t.nodes[1] == Advance(r) && 1 in t.disk && t.disk[1] == DurableOf(r) && 1 in t.nextReadCtx
  {
    hide Good, Handled, History, By;
    LocalEnabled(s, a);
    HandledLogOk(s.nodes[1], a, s.nextReadCtx[1]);
    StepGood(s, a);
    assert a.Timeout? || a.Heartbeat? || a.Propose? || a.Read?;
    HandledLocal(s.nodes[1], a, s.nextReadCtx[1]);
  }

  lemma HandledLocal(n: Node, a: Action, ctx: nat)
    requires LogOk(n.log) && Persists(a) && !a.Deliver?
    ensures Handled(n, a, ctx).Some?
  {
  }

  lemma LocalRestart(s: Cluster)
    requires Good(s) && 1 in s.nodes && 1 in s.disk && LogOk(s.disk[1].log)
    ensures Enabled(s, Restart(1)) && Good(After(s, Restart(1)))
    ensures var t := After(s, Restart(1));
            1 in t.nodes && t.nodes[1] == Restarted(1, s.nodes[1].peers, s.disk[1]) && 1 in t.nextReadCtx && t.nextReadCtx[1] == 1
  {
    hide Good, By;
    LocalEnabled(s, Restart(1));
    StepGood(s, Restart(1));
  }

  lemma CommittedAlone() returns (states: seq<Cluster>, actions: seq<Action>)
    ensures |actions| == 2 && |states| == 3 && Run(states, actions) && Good(states[2]) && 1 in states[2].nodes
    ensures states[2].nodes[1].commitIndex == 1 && HasCommitted(states[2].nodes[1], 1) && states[2].nodes[1].peers == []
    ensures 1 in states[2].disk && states[2].disk[1] == Durable(1, 1, [Entry(0, 0, []), Entry(1, 1, [])], NoSnapshot)
  {
    hide Good, Possible, Orderly, After, Initial, BecomePreCandidate, AfterPropose;
    var s0 := Alone();
    AloneInitial();
    InitialGood(s0);
    LocalStep(s0, Timeout(1));
    ElectedAlone(s0.nodes[1]);
    var s1 := After(s0, Timeout(1));
    LocalStep(s1, Propose(1, [[]]));
    ProposedAlone(s1.nodes[1], []);
    states, actions := [s0, s1, After(s1, Propose(1, [[]]))], [Timeout(1), Propose(1, [[]])];
  }

  /** Node 1 leads term 1, commits one entry, restarts, and leads term 2. */
  lemma RestartedLeader() returns (states: seq<Cluster>, actions: seq<Action>)
    ensures |actions| == 4 && |states| == 5 && Run(states, actions) && Good(states[4]) && 1 in states[2].nodes && 1 in states[4].nodes
    ensures states[2].nodes[1].commitIndex == 1 && HasCommitted(states[2].nodes[1], 1)
    ensures var n := states[4].nodes[1];
            n.role == Leader && n.peers == [] && n.commitIndex == 0 && n.currentTerm == 2 && n.log == [Entry(0, 0, []), Entry(1, 1, [])]
  {
    hide Good, Possible, Orderly, After, Run, BecomePreCandidate;
    states, actions := CommittedAlone();
    LocalRestart(states[2]);
    RunLonger(states, actions, Restart(1));
    states, actions := states + [After(states[2], Restart(1))], actions + [Restart(1)];
    LocalStep(states[3], Timeout(1));
    ElectedAlone(states[3].nodes[1]);
    RunLonger(states, actions, Timeout(1));
    states, actions := states + [After(states[3], Timeout(1))], actions + [Timeout(1)];
  }

  /**
   * RequestReadIndex does not wait for an entry of the leader's own term: here it surfaces index 0
   * although index 1 had been committed before.  The first entry the leader has not committed is of an
   * earlier term, as is all it has.
   */
  lemma StaleRead() returns (states: seq<Cluster>, actions: seq<Action>, rs: ReadState)
    ensures |actions| == 5 && Run(states, actions) && Requests(states, actions, 4, 1) && Surfaces(states, actions, 4, 1, rs)
    ensures rs.ctx == states[4].nextReadCtx[1]
    ensures 1 in states[2].nodes && rs.index == 0 && states[2].nodes[1].commitIndex == 1
    ensures var n := states[4].nodes[1];
            !NextOwn(n) && LogOk(n.log) && n.commitIndex < LastIndex(n.log) && forall k: nat :: Holds(n, k) ==> EntryAt(n, k).term < n.currentTerm
  {
    hide Good, Possible, Orderly, After, Initial, Run, PossibleRun;
    var before, steps := RestartedLeader();
    var s, a := before[4], Read(1);
    LocalStep(s, a);
    states, actions := before + [After(s, a)], steps + [a];
    RunLonger(before, steps, a);
    RunPossible(states, actions);
    rs := ReadState(0, s.nextReadCtx[1]);
    var r := AfterReadRequest(s.nodes[1], s.nextReadCtx[1]);
    assert r.readStates[|r.readStates| - 1] == rs;
  }

  // ---------------------------------------------- AppendEntries below the snapshot boundary

  lemma FirstEntryAgrees(c: Core, n: Node, v: Id, m: Message)
    requires Accepting(c, n, v, m) && Base(n.log) == 1 && m.body.prevIndex == 0 && m.body.entries != []
    ensures m.body.entries[0].term == n.log[0].term
  {
    hide Inv;
    BaseInLeader(c, n, v, m.term);
    SentAt(c, m, 0);
    assert c.committed[0] == c.committed[..1][0] == c.tlog[m.term][..1][0];
  }

  lemma AppendFails(n: Node, m: Message)
    requires LogOk(n.log) && m.body.AppendEntries? && EntriesOk(m.body.prevIndex, m.body.entries)
    ensures AfterAppend(n, m).None? <==>
              && m.term >= n.currentTerm && Accepts(n, m)
              && Merge(n.log, n.unstableIndex, m.body.prevIndex, m.body.entries).None?
  {
    hide Merge, TermIn;
  }

  lemma MergeFails(log: seq<Entry>, unstable: nat, p: nat, es: seq<Entry>)
    requires LogOk(log) && EntriesOk(p, es) && p <= LastIndex(log)
    ensures Merge(log, unstable, p, es).None?
            <==> AgreeLen(log, p + 1, es) < |es| && p + 1 + AgreeLen(log, p + 1, es) <= Base(log)
  {
    hide AgreeLen;
  }

  lemma TimedAppend(n: Node, m: Message)
    requires LogOk(n.log) && m.body.AppendEntries? && EntriesOk(m.body.prevIndex, m.body.entries) && m.body.entries != [] && TimedMsg(m)
    requires Accepts(n, m)
    ensures m.body.prevIndex < Base(n.log) ==> m.body.prevIndex == 0
    ensures var k := AgreeLen(n.log, m.body.prevIndex + 1, m.body.entries);
            k < |m.body.entries| && m.body.prevIndex + 1 + k <= Base(n.log)
            <==> m.body.prevIndex == 0 && Base(n.log) > 0 && !(Base(n.log) == 1 && m.body.entries[0].term == n.log[0].term)
  {
    var k := AgreeLen(n.log, m.body.prevIndex + 1, m.body.entries);
    assert k > 0 ==> HasTerm(n.log, m.body.prevIndex + 1 + 0, m.body.entries[0].term);
    assert Timed(m.body.entries[0].term, m.body.entries[0].index);
  }

  /**
   * handleAppendEntries has no guard for a previous index below the receiver's snapshot boundary.
   * Over every possible run it panics exactly when entries from the very beginning of the log reach a
   * node that has compacted more than one of them, or only one and not the one it is sent.
   */
  lemma AppendPanicsAnywhere(states: seq<Cluster>, actions: seq<Action>, i: nat, v: Id, m: Message)
    requires PossibleRun(states, actions) && i < |states| && v in states[i].nodes
    requires m in states[i].net && m.to == v && m.body.AppendEntries?
    ensures LogOk(states[i].nodes[v].log) && EntriesOk(m.body.prevIndex, m.body.entries)
    ensures var n := states[i].nodes[v];
            AfterAppend(n, m).None?
            <==> m.term >= n.currentTerm && m.body.prevIndex == 0 && m.body.entries != []
                 && (Base(n.log) > 1 || (Base(n.log) == 1 && m.body.entries[0].term != n.log[0].term))
  {
    hide PossibleRun, Polled, NodePolled, DiskPolled, Polls, AfterAppend, LogOk, TimedMsg, TimedLog;
    var n := states[i].nodes[v];
    RunPolled(states, actions, i);
    PolledNode(states[i], v);
    PolledLog(states[i].core, n, v);
    PolledMsg(states[i], m);
    RunTimed(states, actions, i);
    TimedPanics(n, m);
  }

  lemma TimedPanics(n: Node, m: Message)
    requires LogOk(n.log) && m.body.AppendEntries? && EntriesOk(m.body.prevIndex, m.body.entries) && TimedMsg(m)
    ensures AfterAppend(n, m).None?
            <==> m.term >= n.currentTerm && m.body.prevIndex == 0 && m.body.entries != []
                 && (Base(n.log) > 1 || (Base(n.log) == 1 && m.body.entries[0].term != n.log[0].term))
  {
    hide AfterAppend, Merge, AgreeLen, Accepts, LogOk, TimedMsg;
    AppendFails(n, m);
    if m.term >= n.currentTerm {
      if m.body.entries != [] && m.body.prevIndex == 0 && Base(n.log) > 0 { TimedAccepts(n, m); }
      if Accepts(n, m) {
        AcceptsBounds(n, m);
        MergeFails(n.log, n.unstableIndex, m.body.prevIndex, m.body.entries);
        if m.body.entries != [] { TimedAppend(n, m); }
      }
    }
  }

  lemma TimedAccepts(n: Node, m: Message)
    requires LogOk(n.log) && m.body.AppendEntries? && m.term >= n.currentTerm && m.body.entries != [] && TimedMsg(m)
    requires m.body.prevIndex == 0 && Base(n.log) > 0
    ensures Accepts(n, m)
  {
  }

  /** The second way needs a committed entry to be lost: with orderly snapshot deliveries there is only the first. */
  lemma AppendPanics(states: seq<Cluster>, actions: seq<Action>, i: nat, v: Id, m: Message)
    requires Run(states, actions) && i < |states| && v in states[i].nodes
    requires m in states[i].net && m.to == v && m.body.AppendEntries?
    ensures LogOk(states[i].nodes[v].log) && EntriesOk(m.body.prevIndex, m.body.entries)
    ensures AfterAppend(states[i].nodes[v], m).None?
            <==> m.term >= states[i].nodes[v].currentTerm && m.body.prevIndex == 0 && m.body.entries != []
                 && Base(states[i].nodes[v].log) > 1
  {
    hide Run, PossibleRun, Good, Inv, NodeOk, DiskOk, Synced, AfterAppend, AppendOk, TimedMsg, Accepts;
    RunPossible(states, actions);
    AppendPanicsAnywhere(states, actions, i, v, m);
    RunGood(states, actions, i);
    GoodNode(states[i], v);
    NetMessage(states[i], m);
    NetAppend(states[i].core, m);
    var n := states[i].nodes[v];
    RunTimed(states, actions, i);
    if m.term >= n.currentTerm && m.body.prevIndex == 0 && m.body.entries != [] && Base(n.log) == 1 {
      TimedAccepts(n, m);
      FirstEntryAgrees(states[i].core, n, v, m);
    }
  }

  // ------------------------------------------------------ a snapshot over a longer log

  /** The entry at k is one that the snapshot's own last entry leads up to. */
  predicate Follows(n: Node, snap: Snapshot, k: nat) {
    Holds(n, k) && snap.lastIndex < k && TermIn(n.log, snap.lastIndex) == snap.lastTerm
  }

  /**
   * handleInstallSnapshot drops the whole log.  It keeps every entry that follows the snapshot in the
   * node's own log exactly when there is none or the snapshot is refused.
   */
  lemma InstallKeeps(n: Node, m: Message)
    requires LogOk(n.log) && m.body.InstallSnapshot?
    ensures Installable(n, m)
            <==> forall k: nat :: Follows(n, m.body.snap, k) ==> Holds(AfterInstall(n, m), k) && EntryAt(AfterInstall(n, m), k) == EntryAt(n, k)
  {
    hide AfterInstall, TermIn;
    InstallAnswer(n, m);
    if !Installable(n, m) { assert Follows(n, m.body.snap, LastIndex(n.log)); }
  }
}
