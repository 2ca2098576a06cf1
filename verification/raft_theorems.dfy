/**
 * What holds over the runs in which no snapshot is installed over a log that goes on
 * past the snapshot's own last entry.  Commit safety needs that: without it,
 * `RaftLosses.CommittedThenLost` loses a committed entry, and `CommittedTwice`
 * commits another in its place.
 */
module RaftSafety {
  import opened RaftTypes
  import opened Quorums
  import opened RaftCore
  import opened RaftEvents
  import opened RaftNode
  import opened RaftCluster
  import opened RaftFrame
  import opened RaftSteps
  import opened RaftRuns
  import opened RaftStable
  import opened RaftSending
  import opened RaftReplication
  import opened RaftInvariant

  /** A run in which no installed snapshot drops what follows it. */
  ghost predicate Run(states: seq<Cluster>, actions: seq<Action>) {
    && |states| == |actions| + 1 && Initial(states[0])
    && forall i :: 0 <= i < |actions| ==> Enabled(states[i], actions[i]) && states[i + 1] == After(states[i], actions[i])
  }

  /** It is a run of the code. */
  lemma RunPossible(states: seq<Cluster>, actions: seq<Action>)
    requires Run(states, actions)
    ensures PossibleRun(states, actions)
  {
    hide Initial, Possible, After;
  }

  /** One more step that is allowed. */
  lemma RunLonger(states: seq<Cluster>, actions: seq<Action>, a: Action)
    requires Run(states, actions) && Enabled(states[|actions|], a)
    ensures Run(states + [After(states[|actions|], a)], actions + [a])
  {
    hide Initial, Possible, Orderly, After;
    var longer, steps := states + [After(states[|actions|], a)], actions + [a];
    forall i | 0 <= i < |steps|
      ensures Enabled(longer[i], steps[i]) && longer[i + 1] == After(longer[i], steps[i])
    {
      if i < |actions| { RunStep(states, actions, i); }
    }
  }

  // ------------------------------------------------------------- the invariant of a run

  lemma UnwrittenInv(c: Core, ids: set<Id>)
    requires Unwritten(c, ids)
    ensures Inv(c)
  {
  }

  lemma InitialNode(s: Cluster, v: Id)
    requires Initial(s) && v in s.nodes
    ensures NodeOk(s.core, s.nodes[v], v) && DiskOk(s.core, s.disk[v], s.nodes[v], v)
  {
    hide Wired, Initial;
    InitialFacts(s, v);
    BlankNode(s.core, s.nodes[v], v);
  }

  lemma InitialFacts(s: Cluster, v: Id)
    requires Initial(s) && v in s.nodes
    ensures s.nodes[v] == NewNode(v, s.nodes[v].peers) && Wired(s.core.ids, s.nodes[v], v) && v in s.disk && s.disk[v] == BlankDisk
    ensures Unwritten(s.core, s.core.ids) && v in s.core.ids
  {
    hide Wired;
  }

  lemma BlankNode(c: Core, n: Node, v: Id)
    requires Unwritten(c, c.ids) && v in c.ids && Wired(c.ids, n, v) && n == NewNode(v, n.peers)
    ensures NodeOk(c, n, v) && DiskOk(c, BlankDisk, n, v)
  {
    hide Wired, LeaderView, CandidateView;
    assert n.role == Follower && n.log == [Entry(0, 0, [])];
    assert Full([], n.log) == [];
    assert LeaderView(c, n, v) && CandidateView(c, n, v) by { Idle(c, n, v); }
  }

  lemma Idle(c: Core, n: Node, v: Id)
    requires n.role == Follower
    ensures LeaderView(c, n, v) && CandidateView(c, n, v)
  {
  }

  lemma InitialGood(s: Cluster)
    requires Initial(s)
    ensures Good(s)
  {
    hide NodeOk, DiskOk, Inv, Wired;
    UnwrittenInv(s.core, s.nodes.Keys);
    forall v | v in s.nodes
      ensures NodeOk(s.core, s.nodes[v], v) && DiskOk(s.core, s.disk[v], s.nodes[v], v)
    {
      InitialNode(s, v);
    }
  }

  lemma {:induction false} RunGood(states: seq<Cluster>, actions: seq<Action>, i: nat)
    requires Run(states, actions) && i < |states|
    ensures Good(states[i])
  {
    hide Good, Initial, By, Enabled;
    if i == 0 {
      InitialGood(states[0]);
    } else {
      RunGood(states, actions, i - 1);
      StepGood(states[i - 1], actions[i - 1]);
    }
  }

  lemma RunShape(states: seq<Cluster>, actions: seq<Action>)
    requires Run(states, actions)
    ensures |states| == |actions| + 1
  {
  }

  lemma RunStep(states: seq<Cluster>, actions: seq<Action>, i: nat)
    requires Run(states, actions) && i < |states| - 1
    ensures |states| == |actions| + 1 && Enabled(states[i], actions[i]) && states[i + 1] == After(states[i], actions[i])
  {
    hide Enabled, Initial;
  }

  /** The history of a run only grows. */
  lemma {:induction false} RunExtends(states: seq<Cluster>, actions: seq<Action>, i: nat, j: nat)
    requires Run(states, actions) && i <= j < |states|
    ensures Good(states[i]) && Good(states[j]) && Extends(states[i].core, states[j].core)
    decreases j
  {
    hide Good, By, Extends, Run, Enabled, After;
    RunGood(states, actions, i);
    RunGood(states, actions, j);
    if i == j {
      SelfExtends(states[i]);
    } else {
      RunExtends(states, actions, i, j - 1);
      RunStep(states, actions, j - 1);
      StepGood(states[j - 1], actions[j - 1]);
      ByExtends(states[j - 1].core, states[j].core, actions[j - 1].v);
      ExtendsTrans(states[i].core, states[j - 1].core, states[j].core);
    }
  }

  lemma SelfExtends(s: Cluster)
    requires Good(s)
    ensures Extends(s.core, s.core)
  {
    hide InvGlue, InvVotes, InvBallots, InvSafe, InvKeep, InvCommitted, NodeOk, DiskOk, MsgOk;
  }

  // ---------------------------------------------------------------------- leaders

  lemma LeaderKnown(s: Cluster, v: Id)
    requires Good(s) && v in s.nodes && s.nodes[v].role == Leader
    ensures Inv(s.core) && v in s.core.log
    ensures var t := s.nodes[v].currentTerm; t in s.core.lead && s.core.lead[t] == v && t in s.core.tlog && s.core.tlog[t] == s.core.log[v]
  {
    hide Inv, LogView, VoteView, CandidateView, CommitView, DiskOk, Good, Wired, Synced;
    GoodNode(s, v);
    NodeBasics(s.core, s.nodes[v], v);
  }

  // ------------------------------------------------------- what a node has committed

  /** The node still holds index k and has committed it. */
  predicate HasCommitted(n: Node, k: nat) {
    LogOk(n.log) && Base(n.log) < k <= n.commitIndex && k <= LastIndex(n.log)
  }

  lemma HeldEntry(c: Core, n: Node, v: Id, k: nat)
    requires NodeOk(c, n, v) && Holds(n, k)
    ensures v in c.log && k <= |c.log[v]| && EntryAt(n, k) == c.log[v][k - 1]
  {
    hide VoteView, CandidateView, LeaderView, CommitView, Wired;
    assert c.log[v][k - 1] == n.log[1..][k - 1 - Base(n.log)];
  }

  /** What a node has committed is in the one committed log. */
  lemma CommittedEntry(s: Cluster, v: Id, k: nat)
    requires Good(s) && v in s.nodes && HasCommitted(s.nodes[v], k)
    ensures k <= |s.core.committed| && EntryAt(s.nodes[v], k) == s.core.committed[k - 1]
  {
    hide Inv, LogView, VoteView, CandidateView, LeaderView, Wired, DiskOk, Good, Synced;
    var c, n := s.core, s.nodes[v];
    GoodNode(s, v);
    HeldEntry(c, n, v, k);
    CommittedInLog(c, n.currentTerm, c.log[v], n.commitIndex);
    assert c.log[v][k - 1] == c.log[v][..n.commitIndex][k - 1] == c.committed[..n.commitIndex][k - 1];
  }

  /** State-machine safety: whatever two nodes commit at one index, at whatever points of a run, is one entry. */
  lemma StateMachineSafety(states: seq<Cluster>, actions: seq<Action>, i: nat, j: nat, v: Id, w: Id, k: nat)
    requires Run(states, actions) && i < |states| && j < |states| && v in states[i].nodes && w in states[j].nodes
    requires HasCommitted(states[i].nodes[v], k) && HasCommitted(states[j].nodes[w], k)
    ensures EntryAt(states[i].nodes[v], k) == EntryAt(states[j].nodes[w], k)
  {
    hide Good, Run, EntryAt, Extends;
    RunGood(states, actions, i);
    RunGood(states, actions, j);
    CommittedEntry(states[i], v, k);
    CommittedEntry(states[j], w, k);
    if i <= j {
      RunExtends(states, actions, i, j);
      CommittedGrows(states[i].core, states[j].core, k);
    } else {
      RunExtends(states, actions, j, i);
      CommittedGrows(states[j].core, states[i].core, k);
    }
  }

  lemma CommittedGrows(c: Core, d: Core, k: nat)
    requires Extends(c, d) && 1 <= k <= |c.committed|
    ensures k <= |d.committed| && d.committed[k - 1] == c.committed[k - 1]
  {
    assert c.committed[k - 1] == c.committed[..|c.committed|][k - 1] == d.committed[..|c.committed|][k - 1];
  }

  // ---------------------------------------------------------------- leader completeness

  /** A leader elected before a commit of an earlier term came about had the entries already. */
  lemma LeaderAlready(c: Core, d: Core, u: nat, i: nat, t: nat)
    requires Inv(c) && Inv(d) && Extends(c, d) && Chosen(d, u, i) && t in c.tlog && u < t
    ensures u in c.tlog && u in d.tlog && i <= |c.tlog[u]| && Shares(c.tlog[u], c.tlog[t], i) && Shares(c.tlog[u], d.tlog[u], i)
  {
    hide InvGlue, InvVotes, InvBallots, InvKeep, InvCommitted;
    var q :| IsQuorum(d.ids, q) && MatchedBy(d, q, u, i);
    VotersReached(c, t);
    var x := QuorumsMeet(c.ids, q, c.elect[t]);
    assert Acc(d, x, u) >= i;
    assert Acc(c, x, u) == Acc(d, x, u);
    OwnBefore(c, d, x, u, i);
    ChosenChoosable(d, u, i);
    ChoosableShrinks(c, d, u, i);
    assert LeaderSafe(c, u, t, i);
  }

  lemma CommittedAlready(c: Core, d: Core, t: nat, l: Log, n: nat, u: nat)
    requires Inv(c) && Inv(d) && Extends(c, d) && CommittedBy(d, t, l, n) && u in c.tlog && t < u
    ensures Shares(l, c.tlog[u], n)
  {
    hide Inv, Extends, Chosen;
    if n > 0 {
      var w: nat, i: nat :| CommittedVia(d, t, l, n, w, i);
      LeaderAlready(c, d, w, i, u);
      SharesLess(c.tlog[w], c.tlog[u], n, i);
      SharesLess(c.tlog[w], d.tlog[w], n, i);
    }
  }

  lemma CommittedLater(c: Core, d: Core, t: nat, l: Log, n: nat, u: nat)
    requires Inv(d) && Extends(c, d) && CommittedBy(c, t, l, n) && u in d.tlog && t <= u
    ensures Shares(l, d.tlog[u], n)
  {
    hide Inv, Extends, CommittedBy;
    CommittedStays(c, d, t, l, n);
    CommittedInLeader(d, t, l, n, u);
  }

  lemma CommitKnown(s: Cluster, v: Id)
    requires Good(s) && v in s.nodes
    ensures var c, n := s.core, s.nodes[v];
            Inv(c) && v in c.log && LogOk(n.log) && |c.log[v]| == LastIndex(n.log) && n.commitIndex <= |c.log[v]|
            && CommittedBy(c, n.currentTerm, c.log[v], n.commitIndex)
  {
    hide Inv, LogView, VoteView, CandidateView, LeaderView, DiskOk, Good, Wired, Synced, CommittedBy;
    GoodNode(s, v);
    NodeBasics(s.core, s.nodes[v], v);
  }

  lemma SameHeld(s: Cluster, v: Id, t: Cluster, w: Id, k: nat, n: nat)
    requires Good(s) && v in s.nodes && Good(t) && w in t.nodes && Holds(s.nodes[v], k) && Holds(t.nodes[w], k) && k <= n
    requires v in s.core.log && w in t.core.log && Shares(s.core.log[v], t.core.log[w], n)
    ensures EntryAt(s.nodes[v], k) == EntryAt(t.nodes[w], k)
  {
    hide Inv, NodeOk, DiskOk, Good, Synced;
    GoodNode(s, v);
    GoodNode(t, w);
    HeldEntry(s.core, s.nodes[v], v, k);
    HeldEntry(t.core, t.nodes[w], w, k);
    var a, b := s.core.log[v], t.core.log[w];
    assert a[k - 1] == a[..n][k - 1] == b[..n][k - 1];
  }

  /**
   * Leader completeness: what a node in term T has committed is in the log of every leader of a
   * later term, even one elected before the commit, and of every leader of term T from then on.
   */
  lemma LeaderCompleteness(states: seq<Cluster>, actions: seq<Action>, i: nat, j: nat, v: Id, w: Id, k: nat)
    requires Run(states, actions) && i < |states| && j < |states| && v in states[i].nodes && w in states[j].nodes
    requires 1 <= k <= states[i].nodes[v].commitIndex && states[j].nodes[w].role == Leader
    requires states[i].nodes[v].currentTerm < states[j].nodes[w].currentTerm
             || (states[i].nodes[v].currentTerm == states[j].nodes[w].currentTerm && i <= j)
    ensures LogOk(states[j].nodes[w].log) && k <= LastIndex(states[j].nodes[w].log)
    ensures Holds(states[i].nodes[v], k) && Holds(states[j].nodes[w], k)
            ==> EntryAt(states[i].nodes[v], k) == EntryAt(states[j].nodes[w], k)
  {
    hide Good, Run, EntryAt, Extends, Inv, CommittedBy, Holds;
    var s, t := states[i], states[j];
    var n, l := s.nodes[v], t.nodes[w];
    if i <= j { RunExtends(states, actions, i, j); } else { RunExtends(states, actions, j, i); }
    CommitKnown(s, v);
    CommitKnown(t, w);
    LeaderKnown(t, w);
    if i <= j {
      CommittedLater(s.core, t.core, n.currentTerm, s.core.log[v], n.commitIndex, l.currentTerm);
    } else {
      CommittedAlready(t.core, s.core, n.currentTerm, s.core.log[v], n.commitIndex, l.currentTerm);
    }
    if Holds(n, k) && Holds(l, k) { SameHeld(s, v, t, w, k, n.commitIndex); }
  }

  /** What a node has committed stays within what the cluster has. */
  lemma CommitWithin(s: Cluster, t: Cluster, w: Id)
    requires Good(s) && Extends(s.core, t.core) && w in s.nodes
    ensures s.nodes[w].commitIndex <= |t.core.committed|
  {
    hide Good, Inv, NodeOk, DiskOk, Synced;
    GoodNode(s, w);
    NodeCommit(s.core, s.nodes[w], w);
  }

  // --------------------------------------------------------------------- what a peer needs next

  /** A leader's next index for a peer is at least 1 and never past the end of its log. */
  lemma NextWithin(states: seq<Cluster>, actions: seq<Action>, i: nat, v: Id, p: Id)
    requires Run(states, actions) && i < |states| && v in states[i].nodes && states[i].nodes[v].role == Leader && p in states[i].nodes[v].peers
    ensures LogOk(states[i].nodes[v].log) && 1 <= At(states[i].nodes[v].nextIndex, p) <= LastIndex(states[i].nodes[v].log) + 1
  {
    hide Run, Good, Inv, DiskOk, Synced, LogView, VoteView, CandidateView, CommitView;
    RunGood(states, actions, i);
    var s := states[i];
    GoodNode(s, v);
    NodeBasics(s.core, s.nodes[v], v);
    assert PeerView(s.core, s.nodes[v], |s.core.log[v]|, p);
  }

  // ------------------------------------------------------------- the receiver's commit bound

  /**
   * Every AppendEntries sent reaches the end of the sender's log, and its commit index lies within.
   */
  lemma SentToTheEnd(states: seq<Cluster>, actions: seq<Action>, i: nat, m: Message)
    requires Run(states, actions) && i < |actions| && m.body.AppendEntries?
    requires m in states[i + 1].net && m !in states[i].net
    ensures m.from == actions[i].v && m.from in states[i + 1].nodes
    ensures var n := states[i + 1].nodes[m.from];
            LogOk(n.log) && m.body.prevIndex + |m.body.entries| == LastIndex(n.log) && m.body.commit <= LastIndex(n.log)
  {
    hide Good, Run, Handled;
    RunShape(states, actions);
    var s, a := states[i], actions[i];
    RunGood(states, actions, i);
    RunGood(states, actions, i + 1);
    RunStep(states, actions, i);
    assert Persists(a) && HandledAt(s, a).Some?;
    var r := HandledAt(s, a).value;
    SentByHandler(s, a, HandledAt(s, a).value, m);
    NetCommit(states[i + 1], m);
  }

  lemma SentByHandler(s: Cluster, a: Action, r: Node, m: Message)
    requires Enabled(s, a) && Persists(a) && HandledAt(s, a) == Some(r) && m in r.msgs && Good(s)
    ensures m.from == r.id == a.v && Reaches(r, m)
  {
    hide Good, Inv, By, MsgOk, Handled, History;
    HandledOk(s, a, r);
    NodeBasics(History(s.core, s.nodes[a.v], r, a), r, a.v);
  }

  lemma NetCommit(s: Cluster, m: Message)
    requires Good(s) && m in s.net && m.body.AppendEntries?
    ensures m.body.commit <= m.body.prevIndex + |m.body.entries|
  {
    hide Inv, NodeOk, DiskOk, Synced;
  }

  /**
   * A receiver that accepts an AppendEntries commits all the sender has: the bound by its own last
   * index takes nothing away, because it has just matched the sender up to the entries' end.
   */
  lemma CommitBound(states: seq<Cluster>, actions: seq<Action>, i: nat, v: Id, m: Message)
    requires Run(states, actions) && i < |actions| && actions[i] == Deliver(v, m) && m.body.AppendEntries? && v in states[i].nodes
    requires LogOk(states[i].nodes[v].log) && Accepts(states[i].nodes[v], m)
    requires EntriesOk(m.body.prevIndex, m.body.entries) && AfterAppend(states[i].nodes[v], m).Some?
    ensures v in states[i + 1].nodes
    ensures var n, r := states[i].nodes[v], states[i + 1].nodes[v];
            LogOk(r.log) && m.body.prevIndex + |m.body.entries| <= LastIndex(r.log)
            && r.commitIndex == (if m.body.commit > n.commitIndex then m.body.commit else n.commitIndex)
  {
    hide Good, Run, AfterAppend, Merge, NodeOk, Inv, DiskOk, Synced;
    RunShape(states, actions);
    var s := states[i];
    var n := s.nodes[v];
    RunGood(states, actions, i);
    RunStep(states, actions, i);
    AppendAnswer(n, m);
    NetCommit(s, m);
    GoodNode(s, v);
    NodeBasics(s.core, n, v);
    assert HandledAt(s, actions[i]) == AfterAppend(n, m);
    MergeLength(n.log, n.unstableIndex, m.body.prevIndex, m.body.entries);
  }

  lemma MergeLength(log: seq<Entry>, unstable: nat, p: nat, es: seq<Entry>)
    requires LogOk(log) && EntriesOk(p, es) && p <= LastIndex(log) && Merge(log, unstable, p, es).Some?
    ensures p + |es| <= LastIndex(Merge(log, unstable, p, es).value.0)
  {
    hide AgreeLen;
    if 0 < AgreeLen(log, p + 1, es) { AgreeAt(log, p, es); }
  }
}
