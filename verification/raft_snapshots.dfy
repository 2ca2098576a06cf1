/**
 * Where snapshots come from: over every possible run, whatever a node, a disk or a message holds as a
 * snapshot is what some server handed its node at that very index.
 */
module RaftSnapshots {
  import opened RaftTypes
  import opened RaftNode
  import opened RaftCluster
  import opened RaftSteps
  import opened RaftRuns
  import opened RaftPolls
  import opened RaftLinkSteps
  import opened RaftLinks

  /** Some CreateSnapshot among the actions was for this index and with this data. */
  ghost predicate Taken(actions: seq<Action>, snap: Snapshot) {
    snap.lastIndex > 0 ==> exists k, v :: 0 <= k < |actions| && actions[k] == Compact(v, snap.lastIndex, snap.data)
  }

  ghost predicate NodeMade(actions: seq<Action>, n: Node) { Taken(actions, n.snapshot) && (n.toApply.Some? ==> Taken(actions, n.toApply.value)) }

  ghost predicate ClusterMade(actions: seq<Action>, s: Cluster) {
    && (forall v :: v in s.nodes ==> Taken(actions, s.nodes[v].snapshot) && s.nodes[v].toApply.None?)
    && (forall v :: v in s.disk ==> Taken(actions, s.disk[v].snapshot))
    && forall m :: m in s.net && m.body.InstallSnapshot? ==> Taken(actions, m.body.snap)
  }

  // ----------------------------------------------------------------------- handlers

  predicate SameSnapshot(n: Node, r: Node) { r.snapshot == n.snapshot && r.toApply == n.toApply }

  /** A handler keeps the snapshot, or installs the one delivered, which is then the server's to restore. */
  predicate SnapshotFrom(n: Node, a: Action, r: Node)
    requires LogOk(n.log)
  {
    || SameSnapshot(n, r)
    || (a.Deliver? && a.m.body.InstallSnapshot? && a.m.body.snap.lastIndex > Base(n.log) && r.snapshot == a.m.body.snap && r.toApply == Some(a.m.body.snap))
  }

  lemma CandidateSame(n: Node)
    requires LogOk(n.log)
    ensures SameSnapshot(n, BecomeCandidate(n)) && SameSnapshot(n, BecomePreCandidate(n))
  {
    hide CommitUpTo;
    forall c: Node, body: Body ensures Broadcast(c, n.peers, body) == c.(msgs := Broadcast(c, n.peers, body).msgs) { BroadcastSame(c, n.peers, body); }
  }

  lemma LeaderSame(n: Node)
    requires LogOk(n.log)
    ensures SameSnapshot(n, BecomeLeader(n))
  {
    hide CommitUpTo;
    var l := n.(role := Leader, leaderId := n.id, nextIndex := InitialNext(n.peers, LastIndex(n.log) + 1),
                matchIndex := InitialNext(n.peers, 0), sentIndex := map[], pendingReads := map[]);
    SendAppendsSame(l, n.peers, 0);
  }

  lemma AppendSame(n: Node, m: Message)
    requires LogOk(n.log) && m.body.AppendEntries? && EntriesOk(m.body.prevIndex, m.body.entries)
    ensures AfterAppend(n, m).Some? ==> SameSnapshot(n, AfterAppend(n, m).value)
  {
    hide LogOk, Merge, TermIn;
  }

  lemma ResponseSame(n: Node, m: Message)
    requires LogOk(n.log)
    ensures m.body.AppendEntriesResponse? ==> SameSnapshot(n, AfterAppendResponse(n, m))
    ensures m.body.InstallSnapshotResponse? ==> SameSnapshot(n, AfterInstallResponse(n, m))
  {
    hide LogOk, CommitUpTo, EntriesIn, TermIn, AckRead;
    if m.body.AppendEntriesResponse? { AckReadFields(n, m.body.readCtx, m.from); }
  }

  lemma StepSnapshot(n: Node, a: Action)
    requires a.Deliver? && LogOk(n.log) && (a.m.body.AppendEntries? ==> EntriesOk(a.m.body.prevIndex, a.m.body.entries))
    ensures AfterStep(n, a.m).Some? ==> SnapshotFrom(n, a, AfterStep(n, a.m).value)
  {
    hide AfterAppend, AfterInstall, AfterAppendResponse, AfterInstallResponse, BecomeCandidate, BecomeLeader, LogUpToDate, HasMajority, LogOk;
    var m := a.m;
    match m.body
    case PreVoteResponse(_) => CandidateSame(n.(preVotesReceived := n.preVotesReceived + {m.from}));
    case RequestVoteResponse(_) => LeaderSame(n.(votesReceived := n.votesReceived + {m.from}));
    case AppendEntries(_, _, _, _, _) => AppendSame(n, m);
    case InstallSnapshot(_) => InstallAnswer(n, m);
    case AppendEntriesResponse(_, _, _) => ResponseSame(n, m);
    case InstallSnapshotResponse(_) => ResponseSame(n, m);
    case _ =>
  }

  lemma HandledSnapshot(n: Node, a: Action, ctx: nat)
    requires LogOk(n.log) && Persists(a)
    requires a.Deliver? && a.m.body.AppendEntries? ==> EntriesOk(a.m.body.prevIndex, a.m.body.entries)
    ensures Handled(n, a, ctx).Some? ==> SnapshotFrom(n, a, Handled(n, a, ctx).value)
  {
    hide AfterStep, BecomePreCandidate, CommitUpTo, LogOk;
    match a
    case Timeout(_) => CandidateSame(n);
    case Heartbeat(_) => SendAppendsSame(n, n.peers, 0);
    case Propose(_, datas) =>
      NewLogOk(n.log, n.currentTerm, datas);
      SendAppendsSame(n.(log := n.log + NewEntries(n.currentTerm, LastIndex(n.log) + 1, datas)), n.peers, 0);
    case Read(_) => SendAppendsSame(n.(pendingReads := n.pendingReads[ctx := PendingRead(n.commitIndex, {n.id})]), n.peers, ctx);
    case Deliver(_, m) => StepSnapshot(n, a);
  }

  // ------------------------------------------------------------------------ clusters

  lemma HandledMade(actions: seq<Action>, s: Cluster, a: Action, r: Node)
    requires ClusterMade(actions, s) && Possible(s, a) && Persists(a) && HandledAt(s, a) == Some(r) && Polled(s)
    ensures NodeMade(actions, r) && LogOk(r.log) && OutFrom(r)
  {
    hide Polled, Handled, Taken, LinkStep;
    HandledSnapshot(s.nodes[a.v], a, s.nextReadCtx[a.v]);
    HandledOccurs(s, a, r, Link(0, Entry(0, 0, [])));
    LinkStepOut(s.nodes[a.v], r, a);
  }

  lemma {:induction false} MadeLater(actions: seq<Action>, a: Action, s: Cluster)
    requires ClusterMade(actions, s)
    ensures ClusterMade(actions + [a], s)
  {
    hide Taken;
    forall snap: Snapshot | Taken(actions, snap) ensures Taken(actions + [a], snap) { MadeStays(actions, a, snap); }
  }

  lemma MadeStays(actions: seq<Action>, a: Action, snap: Snapshot)
    requires Taken(actions, snap)
    ensures Taken(actions + [a], snap)
  {
    if snap.lastIndex > 0 {
      var k, v :| 0 <= k < |actions| && actions[k] == Compact(v, snap.lastIndex, snap.data);
      assert (actions + [a])[k] == Compact(v, snap.lastIndex, snap.data);
    }
  }

  lemma ReopenedMade(actions: seq<Action>, s: Cluster, v: Id, d: Durable, t: Cluster)
    requires ClusterMade(actions, s) && v in s.nodes && LogOk(d.log) && Taken(actions, d.snapshot) && t == Reopened(s, v, d, t.core)
    ensures ClusterMade(actions, t)
  {
    hide LogOk;
  }

  lemma DoneMade(actions: seq<Action>, s: Cluster, a: Action, r: Node)
    requires ClusterMade(actions, s) && Formed(s) && a.v in s.nodes && LogOk(r.log) && OutFrom(r) && NodeMade(actions, r)
    ensures ClusterMade(actions, Done(s, a, r))
  {
    hide Taken, History, LogOk, FromLog;
  }

  lemma CompactMade(actions: seq<Action>, s: Cluster, a: Action)
    requires ClusterMade(actions, s) && a.Compact? && a.v in s.nodes && LogOk(s.nodes[a.v].log) && !CompactPanics(s.nodes[a.v], a.index)
    ensures ClusterMade(actions + [a], s.(nodes := s.nodes[a.v := AfterCompact(s.nodes[a.v], a.index, a.data)]))
  {
    hide LogOk, Taken;
    MadeLater(actions, a, s);
    var r := AfterCompact(s.nodes[a.v], a.index, a.data);
    if r != s.nodes[a.v] { MadeHere(actions, a, r.snapshot); }
  }

  lemma MadeHere(actions: seq<Action>, a: Action, snap: Snapshot)
    requires a.Compact? && a.index == snap.lastIndex && a.data == snap.data
    ensures Taken(actions + [a], snap)
  {
    assert (actions + [a])[|actions|] == Compact(a.v, snap.lastIndex, snap.data);
  }

  /** A crash inside a persist leaves the old snapshot or the new one. */
  lemma LeftSnapshot(d: Durable, r: Node, e: Durable)
    requires LogOk(d.log) && LogOk(r.log) && Recoverable(d, r, e)
    ensures e.snapshot == d.snapshot || e.snapshot == r.snapshot
  {
    hide LogOk;
  }

  lemma MadeStep(actions: seq<Action>, s: Cluster, a: Action)
    requires ClusterMade(actions, s) && Possible(s, a) && Polled(s)
    ensures ClusterMade(actions + [a], After(s, a))
  {
    hide Polled, Handled, Taken, History, HistCrash, Recoverable;
    MadeLater(actions, a, s);
    match a
    case Restart(v) => ReopenedMade(actions + [a], s, v, s.disk[v], After(s, a));
    case Compact(v, index, data) =>
      if CompactPanics(s.nodes[v], index) { ReopenedMade(actions + [a], s, v, s.disk[v], After(s, a)); } else { CompactMade(actions, s, a); }
    case Crash(v, during, left) =>
      assert Possible(s, during);
      HandledMade(actions + [a], s, during, HandledAt(s, during).value);
      LeftSnapshot(s.disk[v], HandledAt(s, during).value, left);
      ReopenedMade(actions + [a], s, v, left, After(s, a));
    case _ =>
      HandledLogOk(s.nodes[a.v], a, s.nextReadCtx[a.v]);
      if HandledAt(s, a).None? {
        ReopenedMade(actions + [a], s, a.v, s.disk[a.v], After(s, a));
      } else {
        HandledMade(actions + [a], s, a, HandledAt(s, a).value);
        DoneMade(actions + [a], s, a, HandledAt(s, a).value);
      }
  }

  lemma NoneMade(s: Cluster)
    requires Initial(s)
    ensures ClusterMade([], s)
  {
    hide Unwritten, Wired;
  }

  /** Over a run: the snapshots of every node, disk and message at point i. */
  lemma {:induction false} SnapshotsMade(states: seq<Cluster>, actions: seq<Action>, i: nat)
    requires PossibleRun(states, actions) && i < |states|
    ensures i <= |actions| && ClusterMade(actions[..i], states[i])
  {
    hide PossibleRun, Polled, Possible, After, ClusterMade;
    PossibleStart(states, actions);
    if i == 0 {
      NoneMade(states[0]);
    } else {
      SnapshotsMade(states, actions, i - 1);
      RunPolled(states, actions, i - 1);
      PossibleStep(states, actions, i - 1);
      MadeStep(actions[..i - 1], states[i - 1], actions[i - 1]);
      assert actions[..i] == actions[..i - 1] + [actions[i - 1]];
    }
  }

  /** And what a step hands its server to restore. */
  lemma AppliedMade(states: seq<Cluster>, actions: seq<Action>, i: nat, r: Node)
    requires PossibleRun(states, actions) && i < |actions| && Persists(actions[i]) && Possible(states[i], actions[i])
    requires HandledAt(states[i], actions[i]) == Some(r) && r.toApply.Some?
    ensures Taken(actions[..i], r.toApply.value)
  {
    hide PossibleRun, Polled, Handled;
    PossibleStep(states, actions, i);
    SnapshotsMade(states, actions, i);
    RunPolled(states, actions, i);
    HandledMade(actions[..i], states[i], actions[i], r);
  }
}
