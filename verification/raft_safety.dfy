/** Every step of a cluster keeps it in order. */
module RaftInvariant {
  import opened Bytes
  import opened RaftTypes
  import opened RaftCore
  import opened RaftEvents
  import opened RaftNode
  import opened RaftCluster
  import opened RaftFrame
  import opened RaftSteps
  import opened RaftStable
  import opened RaftSending
  import opened RaftElections
  import opened RaftReplication

  ghost predicate Good(s: Cluster) {
    ClusterInv(s) && forall v :: v in s.nodes ==> Synced(s.nodes[v], s.disk[v])
  }

  // ------------------------------------------------------------------ one node at a time

  lemma GoodNode(s: Cluster, v: Id)
    requires Good(s) && v in s.nodes
    ensures v in s.disk && v in s.nextReadCtx && v in s.core.ids
    ensures Inv(s.core) && NodeOk(s.core, s.nodes[v], v) && DiskOk(s.core, s.disk[v], s.nodes[v], v)
    ensures s.nodes[v].msgs == [] && Synced(s.nodes[v], s.disk[v])
  {
  }

  lemma GoodFormed(s: Cluster)
    requires Good(s)
    ensures Formed(s)
  {
    hide Inv, NodeOk, DiskOk, MsgOk, Synced;
    forall v | v in s.nodes
      ensures LogOk(s.nodes[v].log) && LogOk(s.disk[v].log) && s.nodes[v].commitIndex <= LastIndex(s.nodes[v].log)
              && s.nodes[v].id in s.core.term && s.nodes[v].id in s.core.log
    {
      NodeBasics(s.core, s.nodes[v], v);
      DiskLogOk(s.core, s.disk[v], s.nodes[v], v);
    }
    forall m | m in s.net && m.body.AppendEntries?
      ensures EntriesOk(m.body.prevIndex, m.body.entries)
    {
      NetAppend(s.core, m);
    }
  }

  lemma DiskLogOk(c: Core, d: Durable, n: Node, v: Id)
    requires DiskOk(c, d, n, v)
    ensures LogOk(d.log)
  {
  }

  lemma NetAppend(c: Core, m: Message)
    requires Inv(c) && MsgOk(c, m) && m.body.AppendEntries?
    ensures EntriesOk(m.body.prevIndex, m.body.entries)
  {
    hide Inv;
    AppendedEntriesOk(c, m);
  }

  lemma OtherDiskStays(c: Core, d: Core, v: Id, e: Durable, n: Node, u: Id)
    requires By(c, d, v) && u in c.ids && u != v && DiskOk(c, e, n, u)
    ensures DiskOk(d, e, n, u)
  {
    assert OtherSame(c, d, u);
    LogViewStays(c, d, e.log, e.snapshot, u);
  }

  lemma ByIds(c: Core, d: Core, v: Id)
    requires By(c, d, v)
    ensures d.ids == c.ids && Extends(c, d)
  {
  }

  /** Replacing one node, its disk and the history by others that are in order. */
  lemma Rebuild(s: Cluster, t: Cluster, v: Id)
    requires Good(s) && v in s.nodes && v in t.nodes && v in t.disk
    requires t.nodes == s.nodes[v := t.nodes[v]] && t.disk == s.disk[v := t.disk[v]] && t.nextReadCtx.Keys == s.nextReadCtx.Keys
    requires Inv(t.core) && By(s.core, t.core, v)
    requires NodeOk(t.core, t.nodes[v], v) && DiskOk(t.core, t.disk[v], t.nodes[v], v) && t.nodes[v].msgs == []
    requires Synced(t.nodes[v], t.disk[v])
    requires forall m :: m in t.net && m !in s.net ==> MsgOk(t.core, m)
    ensures Good(t)
  {
    hide Inv, By, NodeOk, DiskOk, MsgOk, Synced, Extends;
    ByIds(s.core, t.core, v);
    forall u | u in t.nodes
      ensures NodeOk(t.core, t.nodes[u], u) && DiskOk(t.core, t.disk[u], t.nodes[u], u)
    {
      if u != v {
        OtherNodeStays(s.core, t.core, v, s.nodes[u], u);
        OtherDiskStays(s.core, t.core, v, s.disk[u], s.nodes[u], u);
      }
    }
    forall m | m in t.net
      ensures MsgOk(t.core, m)
    {
      if m in s.net { MsgStays(s.core, t.core, m); }
    }
  }

  // -------------------------------------------------------------------- handlers

  lemma DeliveredOk(c: Core, n: Node, v: Id, m: Message)
    requires Inv(c) && NodeOk(c, n, v) && n.msgs == [] && MsgOk(c, m) && m.to == v && LogOk(n.log) && Installable(n, m)
    requires m.body.AppendEntries? ==> EntriesOk(m.body.prevIndex, m.body.entries)
    requires AfterStep(n, m).Some?
    ensures n.id == v && v in c.term && v in c.log
    ensures var r := AfterStep(n, m).value; StepOk(c, History(c, n, r, Deliver(v, m)), r, v)
  {
    hide Inv, By, NodeOk, Extends, MsgOk, OutboxOk, AfterAppend, AfterInstall, AfterAppendResponse, AfterInstallResponse,
         AfterPreVote, AfterPreVoteResponse, AfterRequestVote, AfterRequestVoteResponse;
    hide HistCampaign, HistVote, HistElect, HistMatch, HistCommit, Accepts;
    NodeBasics(c, n, v);
    match m.body
    case PreVote(_, _) => PreVoteOk(c, n, v, m);
    case PreVoteResponse(_) => PreVoteResponseOk(c, n, v, m);
    case RequestVote(_, _) => RequestVoteOk(c, n, v, m);
    case RequestVoteResponse(_) => RequestVoteResponseOk(c, n, v, m);
    case AppendEntries(_, _, _, _, _) => AppendEntriesOk(c, n, v, m);
    case AppendEntriesResponse(_, _, _) => AppendResponseOk(c, n, v, m);
    case InstallSnapshot(_) => InstallStepOk(c, n, v, m);
    case InstallSnapshotResponse(_) => InstallResponseOk(c, n, v, m);
  }

  lemma HandledOk(s: Cluster, a: Action, r: Node)
    requires Enabled(s, a) && Persists(a) && HandledAt(s, a) == Some(r) && Good(s)
    ensures StepOk(s.core, History(s.core, s.nodes[a.v], r, a), r, a.v)
  {
    hide Inv, By, NodeOk, Extends, MsgOk, OutboxOk, AfterStep, BecomePreCandidate, AfterHeartbeat, AfterPropose, AfterReadRequest;
    hide HistCampaign, HistAppend;
    var c, n, v := s.core, s.nodes[a.v], a.v;
    GoodNode(s, v);
    NodeBasics(c, n, v);
    match a
    case Timeout(_) =>
      if n.role == Leader { IdleOk(c, n, v); } else { TimeoutOk(c, n, v); }
    case Heartbeat(_) => HeartbeatOk(c, n, v);
    case Propose(_, datas) => ProposeOk(c, n, v, datas);
    case Read(_) => ReadOk(c, n, v, s.nextReadCtx[v]);
    case Deliver(_, m) => DeliveredOk(c, n, v, m);
  }

  lemma IdleOk(c: Core, n: Node, v: Id)
    requires Inv(c) && NodeOk(c, n, v) && n.msgs == []
    ensures v in c.term && v in c.log && n.id == v && StepOk(c, HistCampaign(c, n, n), n, v)
  {
    ByRefl(c, v);
  }

  lemma DoneGood(s: Cluster, a: Action, r: Node)
    requires Enabled(s, a) && Persists(a) && HandledAt(s, a) == Some(r) && LogOk(r.log) && Good(s)
    ensures Good(Done(s, a, r)) && By(s.core, Done(s, a, r).core, a.v)
  {
    hide Inv, By, NodeOk, DiskOk, MsgOk, Extends, Synced, Handled, History, Good, ClusterInv, Tracked;
    var n, v := s.nodes[a.v], a.v;
    GoodNode(s, v);
    SyncedFacts(n, s.disk[v]);
    HandledTracked(n, a, s.nextReadCtx[v]);
    HandledOk(s, a, r);
    DoneSynced(n, s.disk[v], r);
    AdvancedOk(History(s.core, n, r, a), r, v);
    Rebuild(s, Done(s, a, r), v);
  }

  lemma SyncedFacts(n: Node, d: Durable)
    requires Synced(n, d)
    ensures LogOk(n.log) && n.unstableIndex == LastIndex(n.log) + 1 && n.snapshot.lastIndex == Base(n.log)
  {
  }

  lemma AdvancedOk(c: Core, r: Node, v: Id)
    requires NodeOk(c, r, v)
    ensures LogOk(r.log) && NodeOk(c, Advance(r), v) && DiskOk(c, DurableOf(r), Advance(r), v) && Advance(r).msgs == []
  {
  }

  // ---------------------------------------------------------------------- crashes

  /** A node opened on a disk that fits the history is in order. */
  lemma OpenOk(c: Core, v: Id, n: Node, e: Durable)
    requires Wired(c.ids, n, v) && LogView(c, e.log, e.snapshot, v) && VoteView(c, e.term, e.vote, v)
    requires CommittedBy(c, e.term, c.log[v], Base(e.log))
    ensures var r := Restarted(v, n.peers, e); NodeOk(c, r, v) && DiskOk(c, e, r, v) && r.msgs == []
  {
    FullLog(c.committed, e.log);
  }

  /** Starting over from what a node in order has on disk. */
  lemma ReopenOk(c: Core, n: Node, v: Id, e: Durable)
    requires NodeOk(c, n, v) && DiskOk(c, e, n, v)
    ensures Wired(c.ids, n, v) && LogView(c, e.log, e.snapshot, v) && VoteView(c, e.term, e.vote, v)
    ensures CommittedBy(c, e.term, c.log[v], Base(e.log))
  {
    CommittedLess(c, n.currentTerm, c.log[v], Base(e.log), n.commitIndex);
  }

  lemma ReopenedGood(s: Cluster, v: Id, e: Durable, c: Core)
    requires Good(s) && v in s.nodes && Inv(c) && By(s.core, c, v)
    requires Wired(c.ids, s.nodes[v], v) && LogView(c, e.log, e.snapshot, v) && VoteView(c, e.term, e.vote, v)
    requires CommittedBy(c, e.term, c.log[v], Base(e.log)) && (e.snapshot.lastIndex == 0 ==> e.snapshot == NoSnapshot)
    requires AtBoundary(e.log, e.snapshot)
    ensures Good(Reopened(s, v, e, c)) && By(s.core, Reopened(s, v, e, c).core, v)
  {
    hide Inv, By, NodeOk, DiskOk, MsgOk, Extends, Synced, CommittedBy, VoteView, Restarted;
    OpenOk(c, v, s.nodes[v], e);
    RestartSynced(v, s.nodes[v].peers, e);
    Rebuild(s, Reopened(s, v, e, c), v);
  }

  lemma DiskSnapshot(n: Node, d: Durable)
    requires Synced(n, d)
    ensures d.snapshot.lastIndex == 0 ==> d.snapshot == NoSnapshot
    ensures n.snapshot.lastIndex == 0 ==> n.snapshot == NoSnapshot
    ensures AtBoundary(d.log, d.snapshot) && AtBoundary(n.log, n.snapshot)
  {
  }

  lemma RestartGood(s: Cluster, v: Id)
    requires Good(s) && v in s.nodes && LogOk(s.disk[v].log)
    ensures Good(Reopened(s, v, s.disk[v], s.core)) && By(s.core, s.core, v)
  {
    hide Inv, By, NodeOk, DiskOk, MsgOk, Extends, Synced, Good, ClusterInv, Wired, VoteView, LogView;
    GoodNode(s, v);
    ReopenOk(s.core, s.nodes[v], v, s.disk[v]);
    DiskSnapshot(s.nodes[v], s.disk[v]);
    ByRefl(s.core, v);
    ReopenedGood(s, v, s.disk[v], s.core);
  }

  lemma CompactGood(s: Cluster, v: Id, index: nat, data: Bytes)
    requires Good(s) && v in s.nodes
    ensures LogOk(s.nodes[v].log) && s.nodes[v].commitIndex <= LastIndex(s.nodes[v].log)
    ensures Good(s.(nodes := s.nodes[v := AfterCompact(s.nodes[v], index, data)])) && By(s.core, s.core, v)
  {
    hide Inv, By, NodeOk, MsgOk, Extends, Synced, Good, ClusterInv;
    var n := s.nodes[v];
    GoodNode(s, v);
    NodeBasics(s.core, n, v);
    CompactOk(s.core, n, v, index, data);
    CompactSynced(n, s.disk[v], index, data);
    ByRefl(s.core, v);
    var t := s.(nodes := s.nodes[v := AfterCompact(n, index, data)]);
    assert t.disk == s.disk[v := t.disk[v]];
    Rebuild(s, t, v);
  }

  /** Everything got to disk before the crash: the step happened, its messages were lost. */
  lemma CrashLateGood(s: Cluster, a: Action, r: Node)
    requires Enabled(s, a) && Persists(a) && HandledAt(s, a) == Some(r) && LogOk(r.log) && Good(s)
    ensures Good(Reopened(s, a.v, DurableOf(r), History(s.core, s.nodes[a.v], r, a)))
    ensures By(s.core, History(s.core, s.nodes[a.v], r, a), a.v)
  {
    hide Inv, By, NodeOk, DiskOk, MsgOk, Extends, Synced, Good, ClusterInv, Wired, VoteView, LogView, Handled, History, Tracked;
    var n, v := s.nodes[a.v], a.v;
    GoodNode(s, v);
    SyncedFacts(n, s.disk[v]);
    HandledTracked(n, a, s.nextReadCtx[v]);
    HandledOk(s, a, r);
    var c := History(s.core, n, r, a);
    AdvancedOk(c, r, v);
    DoneSynced(n, s.disk[v], r);
    DiskSnapshot(Advance(r), DurableOf(r));
    ReopenOk(c, Advance(r), v, DurableOf(r));
    NodeWired(s.core, n, v);
    ByIds(s.core, c, v);
    ReopenedGood(s, v, DurableOf(r), c);
  }

  lemma NodeWired(c: Core, n: Node, v: Id)
    requires NodeOk(c, n, v)
    ensures Wired(c.ids, n, v)
  {
  }

  // ----------------------------------------------------- crashes with records half written

  /** Only the new term and vote got to disk. */
  lemma CrashRaisedGood(s: Cluster, v: Id, t: nat, e: Durable)
    requires Good(s) && v in s.nodes && t >= s.nodes[v].currentTerm && !SnapshotPending(s.nodes[v])
    requires e == s.disk[v].(term := t, vote := BecomeFollower(s.nodes[v], t).votedFor)
    ensures LogOk(e.log) && Good(Reopened(s, v, e, Raise(s.core, v, t))) && By(s.core, Raise(s.core, v, t), v)
  {
    hide Inv, By, NodeOk, DiskOk, MsgOk, Extends, Good, ClusterInv, Wired, VoteView, LogView;
    var n := s.nodes[v];
    GoodNode(s, v);
    StepDownOk(s.core, n, v, t);
    var f := BecomeFollower(n, t);
    var c := Raise(s.core, v, t);
    AdvancedOk(c, f, v);
    ReopenOk(c, Advance(f), v, DurableOf(f));
    NodeWired(c, f, v);
    NodeWired(s.core, n, v);
    DiskSnapshot(n, s.disk[v]);
    assert e == DurableOf(f);
    ReopenedGood(s, v, e, c);
  }

  /** A leader's batch of which only the first entries got to disk. */
  lemma CrashProposeGood(s: Cluster, v: Id, datas: seq<Bytes>, e: Durable)
    requires Good(s) && v in s.nodes && s.nodes[v].role == Leader && !SnapshotPending(s.nodes[v]) && LogOk(s.nodes[v].log)
    requires var es := NewEntries(s.nodes[v].currentTerm, LastIndex(s.nodes[v].log) + 1, datas);
             e == s.disk[v].(log := s.nodes[v].log + es) && LogOk(e.log) && v in s.core.term && v in s.core.log
    ensures Good(Reopened(s, v, e, Append(s.core, v, e.log[|s.nodes[v].log|..])))
    ensures By(s.core, Append(s.core, v, e.log[|s.nodes[v].log|..]), v)
  {
    hide Inv, By, NodeOk, DiskOk, MsgOk, Extends, Good, ClusterInv, Wired, VoteView, LogView, Append;
    var n := s.nodes[v];
    var es := NewEntries(n.currentTerm, LastIndex(n.log) + 1, datas);
    GoodNode(s, v);
    ProposedOk(s.core, n, v, datas);
    var p := n.(log := n.log + es);
    var c := Append(s.core, v, es);
    assert e.log[|n.log|..] == es;
    AdvancedOk(c, p, v);
    ReopenOk(c, Advance(p), v, DurableOf(p));
    NodeWired(c, p, v);
    NodeWired(s.core, n, v);
    DiskSnapshot(n, s.disk[v]);
    ByIds(s.core, c, v);
    assert e == DurableOf(p);
    ReopenedGood(s, v, e, c);
  }

  lemma TornView(c: Core, n: Node, v: Id, t: nat, log: seq<Entry>)
    requires Inv(c) && NodeOk(c, n, v) && n.currentTerm == t && t in c.tlog
    requires LogOk(log) && log[0] == n.log[0] && Base(log) <= |c.committed| && LastIndex(log) <= |c.tlog[t]|
    requires Full(c.committed, log) == c.tlog[t][..LastIndex(log)] && CommonWithin(c.log[v], c.tlog[t], LastIndex(log))
    ensures var d := Match(c, v, LastIndex(log), Full(c.committed, log));
            && Inv(d) && By(c, d, v) && LogView(d, log, n.snapshot, v) && VoteView(d, t, n.votedFor, v)
            && CommittedBy(d, t, d.log[v], Base(log))
  {
    hide Inv, By;
    var k := LastIndex(log);
    var l := Full(c.committed, log);
    var d := Match(c, v, k, l);
    assert Matchable(c, v, k, l);
    MatchKeeps(c, v, k, l);
    MatchBy(c, v, k, l);
    BaseCommitted(c, n, v);
    FullLog(c.committed, log);
    CommittedCopy(c, t, c.committed, l, Base(log));
    CommittedStays(c, d, t, l, Base(log));
  }

  /** What is unstable after the entry loop: the entries from the first one that differs. */
  lemma MergeUnstable(log: seq<Entry>, unstable: nat, p: nat, es: seq<Entry>)
    requires LogOk(log) && unstable == LastIndex(log) + 1 && EntriesOk(p, es) && p <= LastIndex(log)
    requires Merge(log, unstable, p, es).Some? && AgreeLen(log, p + 1, es) < |es|
    ensures var k := AgreeLen(log, p + 1, es);
            var (l, f) := Merge(log, unstable, p, es).value;
            && f == p + k + 1 && Base(log) < f <= LastIndex(log) + 1 && f <= LastIndex(l) && Base(l) == Base(log)
            && Below(log, f) == log[..f - Base(log)] && l[f - Base(log)..] == es[k..]
  {
    hide AgreeLen;
    MismatchAt(log, p, es);
  }

  /** A conflict or an append always comes from an accepted message. */
  lemma RewriteAccepted(n: Node, m: Message)
    requires LogOk(n.log) && n.unstableIndex == LastIndex(n.log) + 1
    requires m.body.AppendEntries? && EntriesOk(m.body.prevIndex, m.body.entries) && AfterAppend(n, m).Some?
    requires Unstable(AfterAppend(n, m).value) != []
    ensures m.term >= n.currentTerm && Accepts(n, m) && AgreeLen(n.log, m.body.prevIndex + 1, m.body.entries) < |m.body.entries|
    ensures Merge(n.log, n.unstableIndex, m.body.prevIndex, m.body.entries).Some?
    ensures var r := AfterAppend(n, m).value;
            var f := BecomeFollower(n, m.term);
            && r.currentTerm == m.term && r.votedFor == f.votedFor && r.snapshot == n.snapshot
            && (r.log, r.unstableIndex) == Merge(n.log, n.unstableIndex, m.body.prevIndex, m.body.entries).value
  {
    hide AgreeLen, AfterAppend, Merge, TermIn, Unstable, LogOk;
    if m.term < n.currentTerm {
      StaleAnswer(n, m);
      NothingUnstable(n, AfterAppend(n, m).value);
    } else {
      AppendAnswer(n, m);
      if !Accepts(n, m) {
        NothingUnstable(n, AfterAppend(n, m).value);
      } else if AgreeLen(n.log, m.body.prevIndex + 1, m.body.entries) == |m.body.entries| {
        MergeNothing(n.log, n.unstableIndex, m.body.prevIndex, m.body.entries);
        NothingUnstable(n, AfterAppend(n, m).value);
      }
    }
  }

  lemma NothingUnstable(n: Node, r: Node)
    requires LogOk(n.log) && n.unstableIndex == LastIndex(n.log) + 1 && r.log == n.log && r.unstableIndex == n.unstableIndex
    ensures Unstable(r) == []
  {
  }

  /** Some of a leader's entries got to disk. */
  lemma CrashAppendGood(s: Cluster, v: Id, m: Message, j: nat, e: Durable)
    requires Good(s) && v in s.nodes && LogOk(s.nodes[v].log) && !SnapshotPending(s.nodes[v])
    requires m in s.net && m.to == v && m.body.AppendEntries? && EntriesOk(m.body.prevIndex, m.body.entries)
    requires m.term >= s.nodes[v].currentTerm && Accepts(s.nodes[v], m)
    requires var n := s.nodes[v];
             var k := AgreeLen(n.log, m.body.prevIndex + 1, m.body.entries);
             && k + j <= |m.body.entries| && k < |m.body.entries| && Base(n.log) < m.body.prevIndex + k + 1 <= LastIndex(n.log) + 1
             && e == Durable(m.term, BecomeFollower(n, m.term).votedFor,
                             n.log[..m.body.prevIndex + k + 1 - Base(n.log)] + m.body.entries[k..k + j], s.disk[v].snapshot)
    ensures LogOk(e.log) && v in s.core.term && m.term in s.core.tlog && Base(e.log) <= |s.core.committed|
    ensures Good(Reopened(s, v, e, Match(Raise(s.core, v, m.term), v, LastIndex(e.log), Full(s.core.committed, e.log))))
    ensures By(s.core, Match(Raise(s.core, v, m.term), v, LastIndex(e.log), Full(s.core.committed, e.log)), v)
  {
    hide Inv, By, NodeOk, DiskOk, Extends, Good, ClusterInv, VoteView, LogView, AgreeLen, TermIn, Wired, Full, Match, CommonWithin;
    var n := s.nodes[v];
    var f := BecomeFollower(n, m.term).(leaderId := m.from);
    var c := Raise(s.core, v, m.term);
    GoodNode(s, v);
    NodeBasics(s.core, n, v);
    NetMessage(s, m);
    FollowOk(s.core, n, v, m);
    TornLog(c, f, v, m, j, e.log);
    TornView(c, f, v, m.term, e.log);
    var d := Match(c, v, LastIndex(e.log), Full(c.committed, e.log));
    ByTrans(s.core, c, d, v);
    NodeWired(s.core, n, v);
    ByIds(s.core, d, v);
    DiskSnapshot(n, s.disk[v]);
    ReopenedGood(s, v, e, d);
  }

  lemma NetMessage(s: Cluster, m: Message)
    requires Good(s) && m in s.net
    ensures MsgOk(s.core, m)
  {
  }

  /** What the crash left: the log up to the first entry that differs, and some of the message's. */
  lemma TornAppend(n: Node, d: Durable, m: Message, e: Durable) returns (j: nat)
    requires LogOk(n.log) && LogOk(d.log) && m.body.AppendEntries? && EntriesOk(m.body.prevIndex, m.body.entries) && Synced(n, d)
    requires var r := AfterAppend(n, m);
             r.Some? && LogOk(r.value.log) && !SnapshotPending(r.value) && Unstable(r.value) != [] && TornEntries(d, r.value, e)
    ensures m.term >= n.currentTerm && Accepts(n, m) && !SnapshotPending(n)
    ensures var k := AgreeLen(n.log, m.body.prevIndex + 1, m.body.entries);
            && k + j <= |m.body.entries| && k < |m.body.entries| && Base(n.log) < m.body.prevIndex + k + 1 <= LastIndex(n.log) + 1
            && e == Durable(m.term, BecomeFollower(n, m.term).votedFor,
                            n.log[..m.body.prevIndex + k + 1 - Base(n.log)] + m.body.entries[k..k + j], d.snapshot)
  {
    hide AgreeLen, TermIn, Merge, AfterAppend, Accepts, LogOk, EntriesOk;
    var r := AfterAppend(n, m).value;
    var p, es := m.body.prevIndex, m.body.entries;
    RewriteAccepted(n, m);
    AcceptsBounds(n, m);
    MergeUnstable(n.log, n.unstableIndex, p, es);
    AppendMarks(n, m);
    j :| 0 <= j <= |Unstable(r)| &&
         e == Durable(r.currentTerm, r.votedFor, Below(d.log, r.unstableIndex) + Unstable(r)[..j], d.snapshot);
    var k := AgreeLen(n.log, p + 1, es);
    assert es[k..][..j] == es[k..k + j];
  }

  lemma CrashTornAppendGood(s: Cluster, v: Id, m: Message, e: Durable)
    requires Good(s) && v in s.nodes && LogOk(s.nodes[v].log) && LogOk(s.disk[v].log) && LogOk(e.log)
    requires m in s.net && m.to == v && m.body.AppendEntries? && EntriesOk(m.body.prevIndex, m.body.entries)
    requires var r := AfterAppend(s.nodes[v], m);
             r.Some? && LogOk(r.value.log) && !SnapshotPending(r.value) && Unstable(r.value) != [] && TornEntries(s.disk[v], r.value, e)
    requires v in s.core.term && v in s.core.log && s.nodes[v].id == v
    requires e.log != s.disk[v].log
    ensures e.term in s.core.tlog && Base(e.log) <= |s.core.committed|
    ensures Good(Reopened(s, v, e, Match(Raise(s.core, v, e.term), v, LastIndex(e.log), Full(s.core.committed, e.log))))
    ensures By(s.core, Match(Raise(s.core, v, e.term), v, LastIndex(e.log), Full(s.core.committed, e.log)), v)
  {
    hide By, Good, ClusterInv, AgreeLen, TermIn, AfterAppend, Accepts, Full, Match, NodeOk, DiskOk, Inv, LogOk, EntriesOk, TornEntries, Unstable, Synced;
    GoodNode(s, v);
    var j := TornAppend(s.nodes[v], s.disk[v], m, e);
    CrashAppendGood(s, v, m, j, e);
  }

  lemma AcceptsBounds(n: Node, m: Message)
    requires LogOk(n.log) && m.body.AppendEntries? && Accepts(n, m)
    ensures m.body.prevIndex <= LastIndex(n.log)
  {
  }

  lemma NewPrefix(term: nat, first: nat, datas: seq<Bytes>, j: nat)
    requires j <= |datas|
    ensures NewEntries(term, first, datas)[..j] == NewEntries(term, first, datas[..j])
  {
  }

  lemma CrashTornProposeGood(s: Cluster, v: Id, datas: seq<Bytes>, e: Durable)
    requires Good(s) && v in s.nodes && LogOk(s.nodes[v].log) && LogOk(s.disk[v].log) && LogOk(e.log) && v in s.core.term && v in s.core.log
    requires var r := AfterPropose(s.nodes[v], datas);
             LogOk(r.log) && !SnapshotPending(r) && Unstable(r) != [] && TornEntries(s.disk[v], r, e)
    ensures |s.nodes[v].log| <= |e.log| && Good(Reopened(s, v, e, Append(s.core, v, e.log[|s.nodes[v].log|..])))
    ensures By(s.core, Append(s.core, v, e.log[|s.nodes[v].log|..]), v)
  {
    hide By, Good, ClusterInv, AfterPropose, Append, NodeOk, DiskOk, Inv, LogOk, NewEntries;
    var n := s.nodes[v];
    var r := AfterPropose(n, datas);
    GoodNode(s, v);
    SyncedFacts(n, s.disk[v]);
    ProposeFacts(n, datas);
    var es := NewEntries(n.currentTerm, LastIndex(n.log) + 1, datas);
    ProposedUnstable(n, r, es);
    var j :| 0 <= j <= |Unstable(r)| &&
             e == Durable(r.currentTerm, r.votedFor, Below(s.disk[v].log, r.unstableIndex) + Unstable(r)[..j], s.disk[v].snapshot);
    var some := NewEntries(n.currentTerm, LastIndex(n.log) + 1, datas[..j]);
    NewPrefix(n.currentTerm, LastIndex(n.log) + 1, datas, j);
    assert e == s.disk[v].(log := n.log + some);
    CrashProposeGood(s, v, datas[..j], e);
  }

  lemma CrashTornRaisedGood(s: Cluster, v: Id, m: Message, e: Durable)
    requires Good(s) && v in s.nodes && LogOk(s.nodes[v].log)
    requires m.body.AppendEntries? && EntriesOk(m.body.prevIndex, m.body.entries)
    requires var r := AfterAppend(s.nodes[v], m);
             r.Some? && !SnapshotPending(r.value) && e == s.disk[v].(term := r.value.currentTerm, vote := r.value.votedFor) && e != s.disk[v]
    ensures LogOk(e.log) && Good(Reopened(s, v, e, Raise(s.core, v, e.term))) && By(s.core, Raise(s.core, v, e.term), v)
  {
    hide By, Good, ClusterInv, AfterAppend, Merge;
    var n := s.nodes[v];
    GoodNode(s, v);
    SyncedFacts(n, s.disk[v]);
    AppendMarks(n, m);
    AppendHardState(n, m);
    CrashRaisedGood(s, v, m.term, e);
  }

  lemma CrashMidGood(s: Cluster, a: Action, r: Node, t: Cluster)
    requires Enabled(s, a) && a.Crash? && Enabled(s, a.during) && HandledAt(s, a.during) == Some(r)
    requires a.left != s.disk[a.v] && a.left != DurableOf(r) && t == After(s, a)
    requires Good(s)
    ensures Good(t) && By(s.core, t.core, a.v)
  {
    hide By, Good, ClusterInv, AfterAppend, AfterPropose, Raise, Append, Match, History, TornEntries, Full, Tracked, Rewrote, DurableOf,
         Handled, Reopened, NodeOk, DiskOk, Inv;
    var v, b, e := a.v, a.during, a.left;
    var n, d := s.nodes[v], s.disk[v];
    GoodNode(s, v);
    NodeBasics(s.core, n, v);
    SyncedFacts(n, d);
    HandledTracked(n, b, s.nextReadCtx[v]);
    CrashBetween(n, d, r, e);
    NotBoth(n, r);
    ReopenedCore(s, v, e, HistCrash(s.core, n, r, b, d, e));
    if b.Propose? {
      HandledPropose(n, b, s.nextReadCtx[v]);
      ProposeFacts(n, b.datas);
      ProposeUnmoved(n, d, r, e);
      CrashTornProposeGood(s, v, b.datas, e);
    } else {
      HandledAppend(n, b, s.nextReadCtx[v]);
      if e.log == d.log {
        CrashSameLog(n, d, r, e);
        CrashTornRaisedGood(s, v, b.m, e);
      } else {
        CrashTornAppendGood(s, v, b.m, e);
      }
    }
  }

  lemma CrashGood(s: Cluster, a: Action, t: Cluster)
    requires Enabled(s, a) && a.Crash? && t == After(s, a) && Good(s)
    ensures Good(t) && By(s.core, t.core, a.v)
  {
    hide By, Good, ClusterInv, Raise, Append, Match, History, Full, DurableOf;
    assert Enabled(s, a.during);
    if a.left == DurableOf(HandledAt(s, a.during).value) {
      CrashLateGood(s, a.during, HandledAt(s, a.during).value);
    } else if a.left == s.disk[a.v] {
      RestartGood(s, a.v);
    } else {
      CrashMidGood(s, a, HandledAt(s, a.during).value, t);
    }
  }

  /** Every step keeps the cluster in order. */
  lemma StepGood(s: Cluster, a: Action)
    requires Enabled(s, a) && Good(s)
    ensures Good(After(s, a)) && By(s.core, After(s, a).core, a.v)
  {
    hide By, Good, ClusterInv, History;
    match a
    case Restart(v) => RestartGood(s, v);
    case Compact(v, index, data) => CompactGood(s, v, index, data);
    case Crash(_, _, _) => CrashGood(s, a, After(s, a));
    case _ =>
      HandledLogOk(s.nodes[a.v], a, s.nextReadCtx[a.v]);
      if HandledAt(s, a).Some? { DoneGood(s, a, HandledAt(s, a).value); } else { RestartGood(s, a.v); }
  }
}
