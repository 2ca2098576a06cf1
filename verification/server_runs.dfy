/**
 * A server over a run of its cluster: what a node of the run hands it is what `Servers.Live` asks for, as
 * long as every snapshot that a server of the run gives its node is one from which a replica may go on,
 * which is what `Servers.Live` promises of its own.
 */
module ServerRuns {
  import opened Bytes
  import opened RaftTypes
  import opened RaftNode
  import opened RaftCluster
  import opened RaftSteps
  import opened RaftRuns
  import opened RaftPolls
  import opened RaftReads
  import opened RaftLinkSteps
  import opened RaftLinks
  import opened RaftSnapshots
  import opened ServerLog
  import opened Servers
  import opened ServerReads

  /** Every snapshot given to a node by one of these actions is resumable. */
  ghost predicate Sound(log: seq<Bytes>, actions: seq<Action>) {
    forall k :: 0 <= k < |actions| && actions[k].Compact? ==> Resumable(log, actions[k].data, actions[k].index)
  }

  lemma MadeResumable(log: seq<Bytes>, actions: seq<Action>, snap: Snapshot)
    requires Sound(log, actions) && Taken(actions, snap) && snap.lastIndex > 0
    ensures Resumable(log, snap.data, snap.lastIndex)
  {
    hide Resumable;
    var k, v :| 0 <= k < |actions| && actions[k] == Compact(v, snap.lastIndex, snap.data);
  }

  /** If each snapshot is resumable given that the earlier ones are, then all are. */
  lemma {:induction false} SoundInOrder(log: seq<Bytes>, actions: seq<Action>, i: nat)
    requires i <= |actions|
    requires forall k :: 0 <= k < |actions| && actions[k].Compact? && Sound(log, actions[..k]) ==> Resumable(log, actions[k].data, actions[k].index)
    ensures Sound(log, actions[..i])
  {
    hide Resumable;
    if i > 0 { SoundInOrder(log, actions, i - 1); }
  }

  // ----------------------------------------------------------------------- one round

  /** The boundary of the log moves with the snapshot to restore, and not otherwise. */
  predicate Bounded(n: Node, r: Node) {
    && LogOk(n.log) && LogOk(r.log)
    && if r.toApply.Some? then r.toApply.value.lastIndex > 0 && Base(r.log) == r.toApply.value.lastIndex else Base(r.log) == Base(n.log)
  }

  lemma BoundaryMoves(n: Node, a: Action, r: Node)
    requires LinkStep(n, r, a) && SnapshotFrom(n, a, r) && n.toApply.None?
    requires a.Deliver? && a.m.body.InstallSnapshot? && a.m.to == n.id ==> r == AfterInstall(n, a.m)
    requires a.Deliver? ==> a.m.to == n.id
    ensures Bounded(n, r)
  {
    hide OutFrom, Linked, AfterInstall;
    if a.Deliver? && a.m.body.InstallSnapshot? { InstallAnswer(n, a.m); }
  }

  lemma HandledBoundary(s: Cluster, a: Action, r: Node)
    requires Possible(s, a) && Persists(a) && HandledAt(s, a) == Some(r) && s.nodes[a.v].toApply.None? && Polled(s)
    ensures Bounded(s.nodes[a.v], r)
  {
    hide Polled, NodePolled, DiskPolled, Polls, LinkStep, AfterInstall, AfterAppend, AfterAppendResponse, AfterInstallResponse, AfterPreVote, AfterPreVoteResponse,
         AfterRequestVote, AfterRequestVoteResponse, BecomePreCandidate, AfterPropose, AfterHeartbeat, AfterReadRequest;
    PolledNode(s, a.v);
    SameId(s, a.v);
    HandledSnapshot(s.nodes[a.v], a, s.nextReadCtx[a.v]);
    HandledOccurs(s, a, r, Link(0, Entry(0, 0, [])));
    LinkStepOut(s.nodes[a.v], r, a);
    BoundaryMoves(s.nodes[a.v], a, r);
  }

  lemma SameId(s: Cluster, v: Id)
    requires Polled(s) && v in s.nodes
    ensures s.nodes[v].id == v
  {
    hide DiskPolled, Polls;
  }

  /** What a node hands its server at a step of a run serves it. */
  lemma StepServes(states: seq<Cluster>, actions: seq<Action>, i: nat, r: Node, from: nat)
    requires RaftSafety.Run(states, actions) && i < |actions| && Persists(actions[i]) && Possible(states[i], actions[i])
    requires HandledAt(states[i], actions[i]) == Some(r) && Sound(AppliedLog(states), actions[..i])
    requires Base(states[i].nodes[actions[i].v].log) <= from
    ensures Serves(r, AppliedLog(states), from)
  {
    hide RaftSafety.Run, PossibleRun, Polled, Handled, AppliedLog, Sound, Resumable, Hands, Taken;
    RaftSafety.RunPossible(states, actions);
    PossibleStep(states, actions, i);
    RunPolled(states, actions, i);
    SnapshotsMade(states, actions, i);
    HandledHands(states, actions, i, r);
    HandledBoundary(states[i], actions[i], r);
    if r.toApply.Some? {
      AppliedMade(states, actions, i, r);
      MadeResumable(AppliedLog(states), actions[..i], r.toApply.value);
    }
  }

  // ------------------------------------------------------------------------- one life

  /** From point `from` on, where its process started, the node of v does nothing but take these rounds and compact. */
  ghost predicate Lives(states: seq<Cluster>, actions: seq<Action>, v: Id, from: nat, at: seq<nat>, rounds: seq<Node>) {
    && |at| == |rounds| && (forall k :: 0 <= k < |at| ==> from <= at[k] < |actions|) && (forall j, k :: 0 <= j < k < |at| ==> at[j] < at[k])
    && (forall k :: 0 <= k < |at| ==> RoundAt(states, actions, v, at[k], rounds[k]))
    && forall i :: from <= i < |actions| && i !in at && (exists k :: 0 <= k < |at| && i < at[k]) ==> Idle(states, actions, v, i)
  }

  ghost predicate RoundAt(states: seq<Cluster>, actions: seq<Action>, v: Id, i: nat, r: Node) {
    && i < |actions| && i < |states| && Possible(states[i], actions[i]) && Persists(actions[i]) && actions[i].v == v
    && HandledAt(states[i], actions[i]) == Some(r)
  }

  predicate Idle(states: seq<Cluster>, actions: seq<Action>, v: Id, i: nat) {
    && i < |actions| && i < |states| && v in states[i].nodes && LogOk(states[i].nodes[v].log)
    && (actions[i].v == v ==> actions[i].Compact? && !CompactPanics(states[i].nodes[v], actions[i].index))
  }

  /** The process of v has just been started over its disk. */
  predicate Started(s: Cluster, v: Id) {
    v in s.nodes && v in s.disk && LogOk(s.disk[v].log) && s.nodes[v] == Restarted(v, s.nodes[v].peers, s.disk[v])
  }

  function Persisted(d: Durable): Option<Snapshot> { if d.snapshot.lastIndex > 0 then Some(d.snapshot) else None }

  lemma IdleCommit(s: Cluster, a: Action, v: Id)
    requires Possible(s, a) && v in s.nodes && LogOk(s.nodes[v].log) && (a.v == v ==> a.Compact? && !CompactPanics(s.nodes[v], a.index))
    ensures v in After(s, a).nodes && After(s, a).nodes[v].commitIndex == s.nodes[v].commitIndex
  {
    hide Handled, After, History, LogOk;
    StepShape(s, a);
    if a.v == v { CompactCommit(s, a); }
  }

  lemma CompactCommit(s: Cluster, a: Action)
    requires Possible(s, a) && a.Compact? && LogOk(s.nodes[a.v].log) && !CompactPanics(s.nodes[a.v], a.index)
    ensures a.v in After(s, a).nodes && After(s, a).nodes[a.v].commitIndex == s.nodes[a.v].commitIndex
  {
    hide LogOk, Recoverable;
  }

  lemma {:induction false} IdleRun(states: seq<Cluster>, actions: seq<Action>, v: Id, i: nat, j: nat)
    requires PossibleRun(states, actions) && i <= j <= |actions| && i < |states| && v in states[i].nodes && forall k :: i <= k < j ==> Idle(states, actions, v, k)
    ensures j < |states| && v in states[j].nodes && states[j].nodes[v].commitIndex == states[i].nodes[v].commitIndex
    decreases j
  {
    hide PossibleRun, Possible, After, Idle;
    PossibleStart(states, actions);
    if i < j {
      IdleRun(states, actions, v, i, j - 1);
      PossibleStep(states, actions, j - 1);
      assert Idle(states, actions, v, j - 1);
      IdleAt(states, actions, v, j - 1);
      IdleCommit(states[j - 1], actions[j - 1], v);
    }
  }

  lemma IdleAt(states: seq<Cluster>, actions: seq<Action>, v: Id, i: nat)
    requires Idle(states, actions, v, i)
    ensures i < |actions| && i < |states| && v in states[i].nodes && LogOk(states[i].nodes[v].log)
    ensures actions[i].v == v ==> actions[i].Compact? && !CompactPanics(states[i].nodes[v], actions[i].index)
  {
    hide LogOk;
  }

  lemma RoundCommit(states: seq<Cluster>, actions: seq<Action>, v: Id, i: nat, r: Node)
    requires PossibleRun(states, actions) && RoundAt(states, actions, v, i, r)
    ensures i + 1 < |states| && v in states[i + 1].nodes && states[i + 1].nodes[v].commitIndex == r.commitIndex
  {
    hide PossibleRun, Handled, After, History;
    PossibleStart(states, actions);
    PossibleStep(states, actions, i);
    StepShape(states[i], actions[i]);
  }

  /** Before its k-th round the node has committed no more than its server has applied. */
  lemma CommitReached(states: seq<Cluster>, actions: seq<Action>, v: Id, from: nat, at: seq<nat>, rounds: seq<Node>, snap: Option<Snapshot>, k: nat)
    requires PossibleRun(states, actions) && Lives(states, actions, v, from, at, rounds) && k < |at| && from < |states| && v in states[from].nodes
    requires states[from].nodes[v].commitIndex <= Reached(snap, rounds, 0)
    ensures at[k] < |states| && v in states[at[k]].nodes && states[at[k]].nodes[v].commitIndex <= Reached(snap, rounds, k)
  {
    hide PossibleRun, RoundAt, Idle, Reached, From;
    if k == 0 {
      IdleRun(states, actions, v, from, at[0]);
    } else {
      RoundCommit(states, actions, v, at[k - 1], rounds[k - 1]);
      IdleRun(states, actions, v, at[k - 1] + 1, at[k]);
      ReachedNext(snap, rounds, k - 1);
    }
  }

  /**
   * All that `Servers.Live` asks of the nodes it is given holds of the rounds of a node's life in a run:
   * from its start over its disk, whatever its peers send it.
   */
  lemma LifeServed(states: seq<Cluster>, actions: seq<Action>, v: Id, from: nat, at: seq<nat>, rounds: seq<Node>)
    requires RaftSafety.Run(states, actions) && from < |states| && Started(states[from], v) && Lives(states, actions, v, from, at, rounds)
    requires Sound(AppliedLog(states), actions)
    ensures var snap := Persisted(states[from].disk[v]);
            && (snap.Some? ==> Resumable(AppliedLog(states), snap.value.data, snap.value.lastIndex))
            && forall k :: 0 <= k < |rounds| ==> Serves(rounds[k], AppliedLog(states), Reached(snap, rounds, k))
  {
    hide RaftSafety.Run, PossibleRun, Polled, AppliedLog, Resumable, Serves, Reached, From, Lives, Idle;
    var log, d := AppliedLog(states), states[from].disk[v];
    var snap := Persisted(d);
    RaftSafety.RunPossible(states, actions);
    PossibleStart(states, actions);
    SnapshotsMade(states, actions, from);
    SoundPart(log, actions, from);
    if snap.Some? { MadeResumable(log, actions[..from], d.snapshot); }
    RunPolled(states, actions, from);
    ReachedFirst(snap, rounds);
    StartCommit(states[from], v);
    forall k | 0 <= k < |rounds|
      ensures Serves(rounds[k], log, Reached(snap, rounds, k))
    {
      LivesAt(states, actions, v, from, at, rounds, k);
      CommitReached(states, actions, v, from, at, rounds, snap, k);
      CommitBetween(states, actions, at[k], v);
      SoundPart(log, actions, at[k]);
      StepServes(states, actions, at[k], rounds[k], Reached(snap, rounds, k));
    }
  }

  lemma LivesAt(states: seq<Cluster>, actions: seq<Action>, v: Id, from: nat, at: seq<nat>, rounds: seq<Node>, k: nat)
    requires Lives(states, actions, v, from, at, rounds) && k < |rounds|
    ensures |at| == |rounds| && at[k] < |actions| && RoundAt(states, actions, v, at[k], rounds[k])
  {
    hide RoundAt, Idle;
  }

  lemma SoundPart(log: seq<Bytes>, actions: seq<Action>, i: nat)
    requires Sound(log, actions) && i <= |actions|
    ensures Sound(log, actions[..i])
  {
    hide Resumable;
  }

  lemma StartCommit(s: Cluster, v: Id)
    requires Started(s, v) && Polled(s)
    ensures s.nodes[v].commitIndex == s.disk[v].snapshot.lastIndex
  {
    hide Polled, NodePolled, Polls, LogOk;
    PolledNode(s, v);
    DiskSound(s.nodes[v], s.disk[v]);
  }
}
