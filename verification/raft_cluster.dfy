/**
 * A whole cluster: nodes, their disks, every message ever sent, and the history
 * the nodes have made.
 *
 * Messages are never removed, so a delivery may happen never, late, twice or out
 * of order.  One step is a handler, its `Persist` and its sends, because
 * `server.pump` runs them together; a node may also crash and restart from disk.
 * The history is a function of the steps taken and never holds one back.
 */
module RaftCluster {
  import opened RaftTypes
  import opened RaftCore
  import opened RaftNode

  datatype Cluster = Cluster(
    nodes: map<Id, Node>,
    disk: map<Id, Durable>,
    net: set<Message>,
    nextReadCtx: map<Id, nat>,
    core: Core)

  /** The log a node stands for, with the compacted part put back. */
  function Full(committed: Log, log: seq<Entry>): Log
    requires LogOk(log) && Base(log) <= |committed|
  {
    committed[..Base(log)] + log[1..]
  }

  // -------------------------------------------------------------- what a node knows

  ghost predicate Wired(ids: set<Id>, n: Node, v: Id) {
    && n.id == v && 0 !in ids && v in ids && v !in n.peers
    && (forall i, j :: 0 <= i < j < |n.peers| ==> n.peers[i] != n.peers[j])
    && (forall u :: u in ids <==> u == v || u in n.peers)
  }

  /** The log, snapshot and term of a node are those of the history. */
  ghost predicate LogView(c: Core, log: seq<Entry>, snap: Snapshot, v: Id) {
    && LogOk(log) && Base(log) <= |c.committed|
    && log[0].term == TermAt(c.committed, Base(log))
    && snap.lastIndex == Base(log) && snap.lastTerm == log[0].term
    && v in c.log && c.log[v] == Full(c.committed, log)
  }

  ghost predicate VoteView(c: Core, term: nat, vote: Id, v: Id) {
    && v in c.term && c.term[v] == term
    && (vote != 0 ==> Ballot(term, v, vote) in c.votes)
    && (forall b :: b in c.votes && b.voter == v && b.term == term ==> b.candidate == vote && vote != 0)
  }

  ghost predicate CandidateView(c: Core, n: Node, v: Id) {
    n.role == Candidate && v in c.log ==>
      && (n.currentTerm, v) in c.cand && c.cand[(n.currentTerm, v)] == c.log[v]
      && n.currentTerm > 0
      && n.votesReceived <= c.ids
      && (forall u :: u in n.votesReceived ==> Ballot(n.currentTerm, u, v) in c.votes)
      && !(n.currentTerm in c.lead && c.lead[n.currentTerm] == v)
  }

  /** Whatever of term t the index i covers, v has matched. */
  ghost predicate Covered(c: Core, v: Id, t: nat, i: nat) {
    forall k :: 1 <= k <= i && Own(c, t, k) ==> Acc(c, v, t) >= k
  }

  ghost predicate Reigns(c: Core, v: Id, t: nat) {
    t in c.tlog && t in c.lead && c.lead[t] == v && v in c.log && c.tlog[t] == c.log[v] && Acc(c, v, t) == |c.log[v]|
  }

  ghost predicate PeerView(c: Core, n: Node, last: nat, p: Id) {
    && 1 <= At(n.nextIndex, p) <= last + 1
    && At(n.matchIndex, p) <= last && Covered(c, p, n.currentTerm, At(n.matchIndex, p))
    && At(n.sentIndex, p) <= last
  }

  ghost predicate LeaderView(c: Core, n: Node, v: Id) {
    n.role == Leader && v in c.log ==>
      && Reigns(c, v, n.currentTerm)
      && (forall p :: p in n.peers ==> PeerView(c, n, |c.log[v]|, p))
  }

  /** A leader that has committed in its own term has committed all there is. */
  ghost predicate LeaderCommit(c: Core, n: Node) {
    n.role == Leader && c.committed != [] && LastTerm(c.committed) == n.currentTerm ==> n.commitIndex == |c.committed|
  }

  ghost predicate CommitView(c: Core, n: Node, v: Id) {
    && v in c.log && LogOk(n.log)
    && Base(n.log) <= n.commitIndex <= |c.log[v]| && n.commitIndex <= |c.committed|
    && CommittedBy(c, n.currentTerm, c.log[v], n.commitIndex)
    && LeaderCommit(c, n)
  }

  ghost predicate NodeOk(c: Core, n: Node, v: Id) {
    && Wired(c.ids, n, v)
    && LogView(c, n.log, n.snapshot, v)
    && VoteView(c, n.currentTerm, n.votedFor, v)
    && CandidateView(c, n, v)
    && LeaderView(c, n, v)
    && CommitView(c, n, v)
  }

  /** A disk may lag behind in compaction, never in what it stands for. */
  ghost predicate DiskOk(c: Core, d: Durable, n: Node, v: Id) {
    && LogView(c, d.log, d.snapshot, v)
    && d.term == n.currentTerm && d.vote == n.votedFor
    && LogOk(n.log) && Base(d.log) <= Base(n.log)
  }

  // ------------------------------------------------------------ what a message says

  ghost predicate AppendOk(c: Core, m: Message)
    requires m.body.AppendEntries?
  {
    var b := m.body;
    && m.term in c.tlog && m.term in c.lead && c.lead[m.term] == m.from
    && b.prevIndex + |b.entries| <= |c.tlog[m.term]|
    && b.entries == c.tlog[m.term][b.prevIndex..b.prevIndex + |b.entries|]
    && b.prevTerm == TermAt(c.tlog[m.term], b.prevIndex)
    && b.commit <= b.prevIndex + |b.entries| && b.commit <= |c.committed|
    && CommittedBy(c, m.term, c.tlog[m.term], b.commit)
  }

  ghost predicate InstallOk(c: Core, m: Message)
    requires m.body.InstallSnapshot?
  {
    var s := m.body.snap;
    && m.term in c.tlog && m.term in c.lead && c.lead[m.term] == m.from
    && 1 <= s.lastIndex <= |c.committed| && s.lastTerm == TermAt(c.committed, s.lastIndex)
    && CommittedBy(c, m.term, c.committed, s.lastIndex)
  }

  ghost predicate MsgOk(c: Core, m: Message) {
    && m.from in c.ids && m.to in c.ids && m.from != m.to
    && match m.body
       case PreVote(_, _) => true
       case PreVoteResponse(_) => true
       case RequestVote(i, t) => (m.term, m.from) in c.cand && i == |c.cand[(m.term, m.from)]| && t == LastTerm(c.cand[(m.term, m.from)])
       case RequestVoteResponse(g) => g ==> Ballot(m.term, m.from, m.to) in c.votes
       case AppendEntries(_, _, _, _, _) => AppendOk(c, m)
       case AppendEntriesResponse(ok, i, _) => ok ==> m.term in c.tlog && i <= |c.tlog[m.term]| && Acc(c, m.from, m.term) >= i
       case InstallSnapshot(_) => InstallOk(c, m)
       case InstallSnapshotResponse(i) => i <= |c.committed| && CommittedBy(c, m.term, c.committed, i) && Covered(c, m.from, m.term, i)
  }

  /** An AppendEntries carries the sender's log from its starting point to the very end. */
  predicate Reaches(n: Node, m: Message) {
    m.body.AppendEntries? ==> LogOk(n.log) && m.body.prevIndex + |m.body.entries| == LastIndex(n.log)
  }

  ghost predicate OutboxOk(c: Core, n: Node) {
    forall m :: m in n.msgs ==> MsgOk(c, m) && m.from == n.id && Reaches(n, m)
  }

  ghost predicate ClusterInv(s: Cluster) {
    && Inv(s.core)
    && s.nodes.Keys == s.core.ids && s.disk.Keys == s.core.ids && s.nextReadCtx.Keys == s.core.ids
    && (forall v :: v in s.nodes ==> NodeOk(s.core, s.nodes[v], v) && DiskOk(s.core, s.disk[v], s.nodes[v], v)
                                     && s.nodes[v].msgs == [])
    && (forall m :: m in s.net ==> MsgOk(s.core, m))
  }
}

/** What a step of one node leaves alone: the other nodes' view of the history. */
module RaftFrame {
  import opened RaftTypes
  import opened RaftCore
  import opened RaftNode
  import opened RaftCluster

  /** The history grew by something node v did. */
  ghost predicate By(c: Core, d: Core, v: Id) {
    && Extends(c, d) && c.log.Keys == d.log.Keys
    && (forall u :: u in c.ids && u != v ==> OtherSame(c, d, u))
    && (d.committed == c.committed
        || (d.committed != [] && LastTerm(d.committed) in d.lead && d.lead[LastTerm(d.committed)] == v))
  }

  ghost predicate OtherSame(c: Core, d: Core, u: Id) {
    && u in c.term && u in d.term && d.term[u] == c.term[u]
    && (u in c.log && u in d.log ==> d.log[u] == c.log[u])
    && (forall b :: b in d.votes && b.voter == u ==> b in c.votes)
    && (forall t :: t in d.lead && d.lead[t] == u ==> t in c.lead && t in c.tlog && t in d.tlog && d.tlog[t] == c.tlog[t])
    && (forall t :: Acc(d, u, t) == Acc(c, u, t))
  }

  lemma ExtendsTrans(a: Core, b: Core, c: Core)
    requires Extends(a, b) && Extends(b, c)
    ensures Extends(a, c)
  {
    forall t | t in a.tlog
      ensures t in c.tlog && Shares(a.tlog[t], c.tlog[t], |a.tlog[t]|)
    {
      SharesLess(b.tlog[t], c.tlog[t], |a.tlog[t]|, |b.tlog[t]|);
    }
    SharesLess(b.committed, c.committed, |a.committed|, |b.committed|);
    forall v, t | Acc(a, v, t) < Acc(c, v, t)
      ensures v in a.term && a.term[v] <= t
    {
      assert Acc(a, v, t) < Acc(b, v, t) || Acc(b, v, t) < Acc(c, v, t);
    }
  }

  lemma ByTrans(a: Core, b: Core, c: Core, v: Id)
    requires By(a, b, v) && By(b, c, v)
    ensures By(a, c, v)
  {
    ExtendsTrans(a, b, c);
    forall u | u in a.ids && u != v
      ensures OtherSame(a, c, u)
    {
      assert OtherSame(a, b, u) && OtherSame(b, c, u);
    }
  }

  // ----------------------------------------------------------- other nodes

  lemma FullStays(c: Core, d: Core, log: seq<Entry>)
    requires Extends(c, d) && LogOk(log) && Base(log) <= |c.committed|
    ensures Base(log) <= |d.committed| && Full(d.committed, log) == Full(c.committed, log)
    ensures TermAt(d.committed, Base(log)) == TermAt(c.committed, Base(log))
  {
    SharesLess(c.committed, d.committed, Base(log), |c.committed|);
    if Base(log) > 0 {
      assert c.committed[Base(log) - 1] == c.committed[..Base(log)][Base(log) - 1];
    }
  }

  lemma LogViewStays(c: Core, d: Core, log: seq<Entry>, snap: Snapshot, u: Id)
    requires Extends(c, d) && LogView(c, log, snap, u) && u in d.log && d.log[u] == c.log[u]
    ensures LogView(d, log, snap, u)
  {
    FullStays(c, d, log);
  }

  lemma OwnStays(c: Core, d: Core, t: nat, i: nat)
    requires Extends(c, d) && t in c.tlog && i <= |c.tlog[t]| && Own(d, t, i)
    ensures Own(c, t, i)
  {
    SharesLess(c.tlog[t], d.tlog[t], i, |c.tlog[t]|);
    assert c.tlog[t][i - 1] == c.tlog[t][..i][i - 1] == d.tlog[t][..i][i - 1];
  }

  lemma CoveredStays(c: Core, d: Core, v: Id, t: nat, i: nat)
    requires Extends(c, d) && t in c.tlog && i <= |c.tlog[t]| && Covered(c, v, t, i)
    ensures Covered(d, v, t, i)
  {
    forall k | 1 <= k <= i && Own(d, t, k)
      ensures Acc(d, v, t) >= k
    {
      OwnStays(c, d, t, k);
    }
  }

  lemma LeaderViewStays(c: Core, d: Core, v: Id, n: Node, u: Id)
    requires By(c, d, v) && u in c.ids && u != v && LeaderView(c, n, u) && u in c.log
    ensures LeaderView(d, n, u)
  {
    assert OtherSame(c, d, u);
    if n.role == Leader {
      forall p | p in n.peers
        ensures PeerView(d, n, |c.log[u]|, p)
      {
        assert PeerView(c, n, |c.log[u]|, p);
        CoveredStays(c, d, p, n.currentTerm, At(n.matchIndex, p));
      }
    }
  }

  lemma CommitViewStays(c: Core, d: Core, v: Id, n: Node, u: Id)
    requires By(c, d, v) && u in c.ids && u != v && CommitView(c, n, u) && LeaderView(c, n, u)
    ensures CommitView(d, n, u)
  {
    assert OtherSame(c, d, u);
    CommittedStays(c, d, n.currentTerm, c.log[u], n.commitIndex);
  }

  lemma OtherNodeStays(c: Core, d: Core, v: Id, n: Node, u: Id)
    requires By(c, d, v) && u in c.ids && u != v && NodeOk(c, n, u)
    ensures NodeOk(d, n, u)
  {
    assert OtherSame(c, d, u);
    LogViewStays(c, d, n.log, n.snapshot, u);
    LeaderViewStays(c, d, v, n, u);
    CommitViewStays(c, d, v, n, u);
  }

  // -------------------------------------------------------------- messages

  lemma AppendOkStays(c: Core, d: Core, m: Message)
    requires Extends(c, d) && m.body.AppendEntries? && AppendOk(c, m)
    ensures AppendOk(d, m)
  {
    var b := m.body;
    var k := b.prevIndex + |b.entries|;
    var x, y := c.tlog[m.term], d.tlog[m.term];
    SharesLess(x, y, k, |x|);
    assert y[b.prevIndex..k] == y[..k][b.prevIndex..k] == x[..k][b.prevIndex..k] == x[b.prevIndex..k];
    if b.prevIndex > 0 {
      assert y[b.prevIndex - 1] == y[..k][b.prevIndex - 1] == x[..k][b.prevIndex - 1];
    }
    CommittedStays(c, d, m.term, x, b.commit);
    SharesLess(x, y, b.commit, |x|);
    CommittedCopy(d, m.term, x, y, b.commit);
  }

  lemma InstallOkStays(c: Core, d: Core, m: Message)
    requires Extends(c, d) && m.body.InstallSnapshot? && InstallOk(c, m)
    ensures InstallOk(d, m)
  {
    var i := m.body.snap.lastIndex;
    SharesLess(c.committed, d.committed, i, |c.committed|);
    assert c.committed[i - 1] == c.committed[..i][i - 1] == d.committed[..i][i - 1];
    CommittedStays(c, d, m.term, c.committed, i);
    CommittedCopy(d, m.term, c.committed, d.committed, i);
  }

  /** What was committed before a term's election is none of that term's own. */
  lemma CommittedBeforeElection(d: Core, t: nat, l: Log, n: nat, u: nat, i: nat, k: nat)
    requires Inv(d) && CommittedVia(d, t, l, n, u, i) && u < t && t in d.tlog && 1 <= k <= n
    ensures !Own(d, t, k)
  {
    ChosenInLeader(d, u, i, t);
    assert d.tlog[t][k - 1] == d.tlog[t][..i][k - 1] == d.tlog[u][..i][k - 1];
    assert TermsAtMost(d.tlog[u], u);
  }

  lemma CoveredBeforeElection(c: Core, d: Core, v: Id, t: nat, l: Log, i: nat)
    requires Inv(d) && Extends(c, d) && t !in c.tlog && t in d.tlog && CommittedBy(c, t, l, i)
    ensures Covered(d, v, t, i)
  {
    if i > 0 {
      var u: nat, j: nat :| CommittedVia(c, t, l, i, u, j);
      ChosenStays(c, d, u, j);
      SharesLess(c.tlog[u], d.tlog[u], i, j);
      assert CommittedVia(d, t, l, i, u, j);
      forall k | 1 <= k <= i
        ensures !Own(d, t, k)
      {
        CommittedBeforeElection(d, t, l, i, u, j, k);
      }
    }
  }

  lemma InstallResponseStays(c: Core, d: Core, v: Id, t: nat, i: nat)
    requires Inv(c) && Inv(d) && Extends(c, d)
    requires i <= |c.committed| && CommittedBy(c, t, c.committed, i) && Covered(c, v, t, i)
    ensures i <= |d.committed| && CommittedBy(d, t, d.committed, i) && Covered(d, v, t, i)
  {
    assert CommittedBy(d, t, d.committed, i) by {
      CommittedStays(c, d, t, c.committed, i);
      SharesLess(c.committed, d.committed, i, |c.committed|);
      CommittedCopy(d, t, c.committed, d.committed, i);
    }
    if t in c.tlog {
      CommittedInLeader(c, t, c.committed, i, t);
      CoveredStays(c, d, v, t, i);
    } else if t in d.tlog {
      CoveredBeforeElection(c, d, v, t, c.committed, i);
    }
  }

  lemma MsgStays(c: Core, d: Core, m: Message)
    requires Inv(c) && Inv(d) && Extends(c, d) && MsgOk(c, m)
    ensures MsgOk(d, m)
  {
    hide Inv, CommittedBy, Covered;
    match m.body
    case PreVote(_, _) =>
    case PreVoteResponse(_) =>
    case RequestVote(_, _) =>
    case RequestVoteResponse(_) =>
    case AppendEntries(_, _, _, _, _) => AppendOkStays(c, d, m);
    case AppendEntriesResponse(_, _, _) =>
    case InstallSnapshot(_) => InstallOkStays(c, d, m);
    case InstallSnapshotResponse(i) => InstallResponseStays(c, d, m.from, m.term, i);
  }
}
