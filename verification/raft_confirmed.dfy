/**
 * What a read surfaces is committed: over every possible run, the index of a confirmed
 * read is within the commit index of the node that surfaces it, at that very step.
 */
module RaftReadBounds {
  import opened RaftTypes
  import opened RaftNode
  import opened RaftCluster
  import opened RaftSteps
  import opened RaftRuns
  import opened RaftPolls
  import opened RaftReadSteps
  import opened RaftReads

  /** A leader's pending reads are of indices it has committed. */
  predicate PendingWithin(n: Node) {
    n.role == Leader ==> forall k :: k in n.pendingReads ==> n.pendingReads[k].index <= n.commitIndex
  }

  predicate ClusterWithin(s: Cluster) { forall v :: v in s.nodes ==> PendingWithin(s.nodes[v]) }

  // ----------------------------------------------------------------------- handlers

  lemma ResponseCommits(n: Node, m: Message)
    requires LogOk(n.log)
    ensures m.body.AppendEntriesResponse? ==> AfterAppendResponse(n, m).commitIndex >= n.commitIndex
    ensures m.body.InstallSnapshotResponse? ==> AfterInstallResponse(n, m).commitIndex >= n.commitIndex
  {
    hide LogOk, EntriesIn, TermIn, AckRead, Committable, CommitUpTo;
    if m.body.AppendEntriesResponse? { AckReadFields(n, m.body.readCtx, m.from); }
  }

  lemma StepCommits(n: Node, m: Message)
    requires LogOk(n.log) && n.role == Leader && (m.body.AppendEntries? ==> EntriesOk(m.body.prevIndex, m.body.entries)) && AfterStep(n, m).Some?
    ensures AfterStep(n, m).value.role == Leader || !m.body.AppendEntries? ==> AfterStep(n, m).value.commitIndex >= n.commitIndex
  {
    hide AfterAppendResponse, AfterInstallResponse, AfterInstall, LogUpToDate, HasMajority, LogOk, Merge, TermIn;
    match m.body
    case AppendEntriesResponse(_, _, _) => ResponseCommits(n, m);
    case InstallSnapshotResponse(_) => ResponseCommits(n, m);
    case InstallSnapshot(_) => InstallAnswer(n, m);
    case _ =>
  }

  /** As long as a node leads, its commit index does not go back. */
  lemma LeaderCommits(n: Node, a: Action, ctx: nat)
    requires LogOk(n.log) && Persists(a) && n.role == Leader
    requires a.Deliver? && a.m.body.AppendEntries? ==> EntriesOk(a.m.body.prevIndex, a.m.body.entries)
    requires Handled(n, a, ctx).Some?
    ensures var r := Handled(n, a, ctx).value;
            r.role == Leader || !(a.Deliver? && a.m.body.AppendEntries?) ==> r.commitIndex >= n.commitIndex
  {
    hide AfterStep, BecomePreCandidate, LogOk, CommitUpTo;
    match a
    case Timeout(_) =>
    case Heartbeat(_) => SendAppendsSame(n, n.peers, 0);
    case Propose(_, datas) =>
      NewLogOk(n.log, n.currentTerm, datas);
      SendAppendsSame(n.(log := n.log + NewEntries(n.currentTerm, LastIndex(n.log) + 1, datas)), n.peers, 0);
    case Read(_) => SendAppendsSame(n.(pendingReads := n.pendingReads[ctx := PendingRead(n.commitIndex, {n.id})]), n.peers, ctx);
    case Deliver(_, m) => StepCommits(n, m);
  }

  lemma StepWithin(n: Node, r: Node, a: Action, ctx: nat)
    requires ReadStep(n, r, a, ctx) && PendingWithin(n)
    requires n.role == Leader && (r.role == Leader || !(a.Deliver? && a.m.body.AppendEntries?)) ==> n.commitIndex <= r.commitIndex
    ensures PendingWithin(r) && forall rs :: rs in r.readStates ==> rs.index <= r.commitIndex
  {
    hide ContextSent, ContextEchoed;
  }

  // ------------------------------------------------------------------------ clusters

  lemma HandledWithin(s: Cluster, a: Action, r: Node)
    requires ClusterWithin(s) && Possible(s, a) && Persists(a) && HandledAt(s, a) == Some(r) && ReadsOk(s) && Polled(s)
    ensures PendingWithin(r) && forall rs :: rs in r.readStates ==> rs.index <= r.commitIndex
  {
    hide Polled, NodePolled, DiskPolled, MsgPolled, Polls, Handled, ReadStep, MessageGiven;
    var n, ctx := s.nodes[a.v], s.nextReadCtx[a.v];
    PolledNode(s, a.v);
    HandledReads(n, a, ctx);
    if n.role == Leader { LeaderCommits(n, a, ctx); }
    StepWithin(n, r, a, ctx);
  }

  lemma WithinStep(s: Cluster, a: Action)
    requires ClusterWithin(s) && Possible(s, a) && ReadsOk(s) && Polled(s)
    ensures ClusterWithin(After(s, a))
  {
    hide Polled, ReadsOk, Handled, After, History;
    StepShape(s, a);
    if Persists(a) && HandledAt(s, a).Some? { HandledWithin(s, a, HandledAt(s, a).value); }
  }

  lemma {:induction false} RunWithin(states: seq<Cluster>, actions: seq<Action>, i: nat)
    requires PossibleRun(states, actions) && i < |states|
    ensures ClusterWithin(states[i])
  {
    hide PossibleRun, Polled, ReadsOk, Possible, After;
    PossibleStart(states, actions);
    if i == 0 {
      NoneWithin(states[0]);
    } else {
      RunWithin(states, actions, i - 1);
      RunReads(states, actions, i - 1);
      PossibleStep(states, actions, i - 1);
      WithinStep(states[i - 1], actions[i - 1]);
    }
  }

  lemma NoneWithin(s: Cluster)
    requires Initial(s)
    ensures ClusterWithin(s)
  {
    hide Unwritten, Wired;
  }

  /**
   * Whatever a step surfaces is of an index its node has committed by then, so a server that applies
   * all that is committed before it answers need not wait for the index to come up.
   */
  lemma SurfacedWithin(states: seq<Cluster>, actions: seq<Action>, i: nat, r: Node)
    requires PossibleRun(states, actions) && i < |actions| && Persists(actions[i]) && Possible(states[i], actions[i])
    requires HandledAt(states[i], actions[i]) == Some(r)
    ensures forall rs :: rs in r.readStates ==> rs.index <= r.commitIndex
  {
    hide PossibleRun, Polled, ReadsOk, Handled;
    PossibleStep(states, actions, i);
    RunWithin(states, actions, i);
    RunReads(states, actions, i);
    HandledWithin(states[i], actions[i], r);
  }
}
