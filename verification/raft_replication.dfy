/** Replication keeps the invariant: appends, acknowledgements, commits and snapshots. */
module RaftReplication {
  import opened Bytes
  import opened RaftTypes
  import opened RaftCore
  import opened RaftEvents
  import opened RaftNode
  import opened RaftCluster
  import opened RaftFrame
  import opened RaftSteps
  import opened RaftStable
  import opened RaftSending
  import opened RaftElections

  // --------------------------------------------------------- the entry loop

  ghost predicate Accepting(c: Core, n: Node, v: Id, m: Message) {
    && Inv(c) && NodeOk(c, n, v) && m.body.AppendEntries? && AppendOk(c, m) && n.currentTerm <= m.term
    && Accepts(n, m)
  }

  /** What a node has compacted, every later leader has. */
  lemma BaseInLeader(c: Core, n: Node, v: Id, t: nat)
    requires Inv(c) && NodeOk(c, n, v) && t in c.tlog && n.currentTerm <= t
    ensures Shares(c.log[v], c.tlog[t], Base(n.log)) && Shares(c.committed, c.tlog[t], Base(n.log))
  {
    hide Inv;
    BaseCommitted(c, n, v);
    CommittedInLeader(c, n.currentTerm, c.log[v], Base(n.log), t);
    CommittedInLeader(c, n.currentTerm, c.committed, Base(n.log), t);
  }

  lemma SameTermShares(c: Core, v: Id, t: nat, i: nat)
    requires Inv(c) && v in c.ids && t in c.tlog && 1 <= i <= |c.tlog[t]| && i <= |c.log[v]|
    requires TermAt(c.log[v], i) == TermAt(c.tlog[t], i)
    ensures Shares(c.log[v], c.tlog[t], i)
  {
    LogMatching(c, c.log[v], c.tlog[t], i);
  }

  lemma RealTerm(c: Core, t: nat, i: nat)
    requires Inv(c) && t in c.tlog && 1 <= i <= |c.tlog[t]|
    ensures TermAt(c.tlog[t], i) > 0 && c.tlog[t][i - 1].index == i
  {
    assert GluedAt(c, c.tlog[t], i - 1);
  }

  /** The consistency check: sender and receiver agree up to prev. */
  lemma AcceptedPrefix(c: Core, n: Node, v: Id, m: Message)
    requires Accepting(c, n, v, m)
    ensures Shares(c.log[v], c.tlog[m.term], m.body.prevIndex)
    ensures m.body.prevIndex >= Base(n.log) || m.body.prevIndex == 0
  {
    hide Inv;
    var p := m.body.prevIndex;
    ViewLog(c, n, v);
    if p > 0 {
      RealTerm(c, m.term, p);
      assert TermIn(n.log, p) == TermAt(c.log[v], p);
      SameTermShares(c, v, m.term, p);
    }
  }

  lemma AgreeAt(log: seq<Entry>, p: nat, es: seq<Entry>)
    requires LogOk(log) && AgreeLen(log, p + 1, es) > 0
    ensures var k := AgreeLen(log, p + 1, es); p + k <= LastIndex(log) && TermIn(log, p + k) == es[k - 1].term
  {
    hide AgreeLen;
    var k := AgreeLen(log, p + 1, es);
    assert HasTerm(log, p + 1 + (k - 1), es[k - 1].term);
  }

  lemma SentAt(c: Core, m: Message, j: nat)
    requires m.body.AppendEntries? && AppendOk(c, m) && j < |m.body.entries|
    ensures m.body.entries[j] == c.tlog[m.term][m.body.prevIndex + j]
  {
  }

  lemma AgreedTerm(c: Core, n: Node, v: Id, m: Message, k: nat)
    requires NodeOk(c, n, v) && m.body.AppendEntries? && AppendOk(c, m) && 0 < k <= |m.body.entries|
    requires Base(n.log) <= m.body.prevIndex + k <= LastIndex(n.log)
    requires TermIn(n.log, m.body.prevIndex + k) == m.body.entries[k - 1].term
    ensures m.body.prevIndex + k <= |c.log[v]|
    ensures TermAt(c.log[v], m.body.prevIndex + k) == TermAt(c.tlog[m.term], m.body.prevIndex + k)
  {
    hide NodeOk, TermIn;
    NodeLog(c, n, v);
    SentAt(c, m, k - 1);
  }

  /** The entries found to agree do agree. */
  lemma AgreedPrefix(c: Core, n: Node, v: Id, m: Message)
    requires Accepting(c, n, v, m)
    ensures Shares(c.log[v], c.tlog[m.term], m.body.prevIndex + AgreeLen(n.log, m.body.prevIndex + 1, m.body.entries))
  {
    hide Inv, AgreeLen, TermIn, NodeOk, LogOk, LastIndex, Accepts, Shares, AppendOk;
    NodeBasics(c, n, v);
    var p, es := m.body.prevIndex, m.body.entries;
    var k := AgreeLen(n.log, p + 1, es);
    AcceptedPrefix(c, n, v, m);
    AppendBounds(c, m);
    if k > 0 {
      AgreeAt(n.log, p, es);
      if p + k >= Base(n.log) {
        AgreedTerm(c, n, v, m, k);
        SameTermShares(c, v, m.term, p + k);
      } else {
        BaseInLeader(c, n, v, m.term);
        SharesLess(c.log[v], c.tlog[m.term], p + k, Base(n.log));
      }
    }
  }

  lemma AppendBounds(c: Core, m: Message)
    requires m.body.AppendEntries? && AppendOk(c, m)
    ensures m.term in c.tlog && m.body.prevIndex + |m.body.entries| <= |c.tlog[m.term]|
  {
  }

  lemma AppendedEntriesOk(c: Core, m: Message)
    requires Inv(c) && m.body.AppendEntries? && AppendOk(c, m)
    ensures EntriesOk(m.body.prevIndex, m.body.entries)
  {
    hide Inv;
    forall i | 0 <= i < |m.body.entries|
      ensures m.body.entries[i].index == m.body.prevIndex + 1 + i
    {
      RealTerm(c, m.term, m.body.prevIndex + 1 + i);
    }
  }

  lemma Stitch(l: Log, x: Log, j: nat, k: nat, es: Log)
    requires Shares(l, x, j) && j <= k <= |x| && es == x[j..k]
    ensures l[..j] + es == x[..k]
  {
    assert x[..k] == x[..j] + x[j..k];
  }

  /** Cutting a log at an index and extending it, seen as a whole log. */
  lemma FullCut(c: Log, log: seq<Entry>, cut: nat, es: seq<Entry>)
    requires LogOk(log) && Base(log) <= |c| && Base(log) < cut <= LastIndex(log) + 1
    requires LogOk(log[..cut - Base(log)] + es)
    ensures Full(c, log[..cut - Base(log)] + es) == Full(c, log)[..cut - 1] + es
    ensures Base(log[..cut - Base(log)] + es) == Base(log)
  {
    var b := Base(log);
    var r := log[..cut - b] + es;
    assert r[1..] == log[1..cut - b] + es;
    assert Full(c, log)[..cut - 1] == c[..b] + log[1..cut - b];
  }

  lemma DivergesAt(l: Log, x: Log, at: nat)
    requires 1 <= at <= |x| && (at > |l| || l[at - 1] != x[at - 1])
    ensures CommonWithin(l, x, at - 1)
  {
    forall m: nat | at <= m <= |l| && m <= |x|
      ensures l[..m] != x[..m]
    {
      assert l[..m][at - 1] == l[at - 1];
      assert x[..m][at - 1] == x[at - 1];
    }
  }

  /** Where the log stops agreeing with what was sent. */
  lemma MismatchAt(log: seq<Entry>, p: nat, es: seq<Entry>)
    requires LogOk(log) && AgreeLen(log, p + 1, es) < |es| && p <= LastIndex(log)
    ensures var at := p + 1 + AgreeLen(log, p + 1, es);
            at <= LastIndex(log) + 1 && (at <= LastIndex(log) ==> TermIn(log, at) != es[at - 1 - p].term)
  {
    hide AgreeLen;
    var k := AgreeLen(log, p + 1, es);
    if k > 0 { AgreeAt(log, p, es); }
  }

  lemma MergeAt(log: seq<Entry>, unstable: nat, p: nat, es: seq<Entry>)
    requires LogOk(log) && EntriesOk(p, es) && p <= LastIndex(log)
    requires Merge(log, unstable, p, es).Some? && AgreeLen(log, p + 1, es) < |es|
    ensures var j := AgreeLen(log, p + 1, es);
            var r := Merge(log, unstable, p, es).value.0;
            Base(log) < p + j + 1 <= LastIndex(log) + 1 && r == log[..p + j + 1 - Base(log)] + es[j..] && LogOk(r)
  {
    hide AgreeLen;
    MismatchAt(log, p, es);
    var at := p + 1 + AgreeLen(log, p + 1, es);
    if at > LastIndex(log) { assert log[..at - Base(log)] == log; }
  }

  lemma CutLogOk(log: seq<Entry>, p: nat, k: nat, es: seq<Entry>, j: nat)
    requires LogOk(log) && EntriesOk(p, es) && k + j <= |es| && Base(log) < p + k + 1 <= LastIndex(log) + 1
    ensures var l := log[..p + k + 1 - Base(log)] + es[k..k + j]; LogOk(l) && l[0] == log[0] && LastIndex(l) == p + k + j
  {
  }

  lemma EntriesBetween(c: Core, m: Message, k: nat, j: nat)
    requires m.body.AppendEntries? && AppendOk(c, m) && k + j <= |m.body.entries|
    ensures m.body.entries[k..k + j] == c.tlog[m.term][m.body.prevIndex + k..m.body.prevIndex + k + j]
  {
  }

  /** The log cut after its first at - 1 entries, with the leader's next ones appended. */
  lemma CutFull(c: Core, n: Node, v: Id, m: Message, k: nat, j: nat, log: seq<Entry>)
    requires NodeOk(c, n, v) && m.body.AppendEntries? && AppendOk(c, m) && k + j <= |m.body.entries|
    requires Base(n.log) < m.body.prevIndex + k + 1 <= LastIndex(n.log) + 1 && LogOk(log)
    requires log == n.log[..m.body.prevIndex + k + 1 - Base(n.log)] + m.body.entries[k..k + j]
    requires Shares(c.log[v], c.tlog[m.term], m.body.prevIndex + k)
    ensures Base(log) <= |c.committed| && Full(c.committed, log) == c.tlog[m.term][..m.body.prevIndex + k + j]
  {
    hide NodeOk;
    NodeLog(c, n, v);
    var at := m.body.prevIndex + k + 1;
    EntriesBetween(c, m, k, j);
    Stitch(c.log[v], c.tlog[m.term], at - 1, at - 1 + j, m.body.entries[k..k + j]);
    FullCut(c.committed, n.log, at, m.body.entries[k..k + j]);
  }

  /** The first entry the log does not have is where it parts from the leader's. */
  lemma PartsAt(c: Core, n: Node, v: Id, m: Message)
    requires NodeOk(c, n, v) && m.body.AppendEntries? && AppendOk(c, m) && m.body.prevIndex <= LastIndex(n.log)
    requires AgreeLen(n.log, m.body.prevIndex + 1, m.body.entries) < |m.body.entries|
    requires Base(n.log) < m.body.prevIndex + AgreeLen(n.log, m.body.prevIndex + 1, m.body.entries) + 1
    ensures CommonWithin(c.log[v], c.tlog[m.term], m.body.prevIndex + AgreeLen(n.log, m.body.prevIndex + 1, m.body.entries))
  {
    hide NodeOk, AgreeLen, LogOk;
    NodeLog(c, n, v);
    var k := AgreeLen(n.log, m.body.prevIndex + 1, m.body.entries);
    MismatchAt(n.log, m.body.prevIndex, m.body.entries);
    SentAt(c, m, k);
    DivergesAt(c.log[v], c.tlog[m.term], m.body.prevIndex + k + 1);
  }

  /** The log of a follower cut where it differs from the leader's, with the first j entries appended. */
  lemma TornLog(c: Core, n: Node, v: Id, m: Message, j: nat, log: seq<Entry>)
    requires Accepting(c, n, v, m) && EntriesOk(m.body.prevIndex, m.body.entries)
    requires var k := AgreeLen(n.log, m.body.prevIndex + 1, m.body.entries);
             && k + j <= |m.body.entries| && k < |m.body.entries| && Base(n.log) < m.body.prevIndex + k + 1 <= LastIndex(n.log) + 1
             && log == n.log[..m.body.prevIndex + k + 1 - Base(n.log)] + m.body.entries[k..k + j]
    ensures LogOk(log) && log[0] == n.log[0] && Base(log) <= |c.committed|
    ensures LastIndex(log) == m.body.prevIndex + AgreeLen(n.log, m.body.prevIndex + 1, m.body.entries) + j <= |c.tlog[m.term]|
    ensures Full(c.committed, log) == c.tlog[m.term][..LastIndex(log)]
    ensures CommonWithin(c.log[v], c.tlog[m.term], LastIndex(log))
  {
    hide Inv, AgreeLen, TermIn, NodeOk, LogOk, EntriesOk, AppendOk, Shares, Full;
    NodeBasics(c, n, v);
    AppendBounds(c, m);
    var k := AgreeLen(n.log, m.body.prevIndex + 1, m.body.entries);
    CutLogOk(n.log, m.body.prevIndex, k, m.body.entries, j);
    AgreedPrefix(c, n, v, m);
    CutFull(c, n, v, m, k, j, log);
    PartsAt(c, n, v, m);
  }

  /** The entry loop leaves either the old log or the leader's, cut at the last entry sent. */
  lemma MergedLog(c: Core, n: Node, v: Id, m: Message)
    requires Accepting(c, n, v, m) && EntriesOk(m.body.prevIndex, m.body.entries)
    requires Merge(n.log, n.unstableIndex, m.body.prevIndex, m.body.entries).Some?
    ensures var log := Merge(n.log, n.unstableIndex, m.body.prevIndex, m.body.entries).value.0;
            var k := m.body.prevIndex + |m.body.entries|;
            var x := c.tlog[m.term];
            && log[0] == n.log[0] && Base(log) <= |c.committed| && Shares(Full(c.committed, log), x, k)
            && (log == n.log || (Full(c.committed, log) == x[..k] && CommonWithin(c.log[v], x, k)))
  {
    hide Inv, AgreeLen, TermIn, NodeOk, Merge, AppendOk, LastIndex, CommonWithin, EntriesOk;
    NodeBasics(c, n, v);
    NodeLog(c, n, v);
    AppendBounds(c, m);
    var p, es := m.body.prevIndex, m.body.entries;
    var j := AgreeLen(n.log, p + 1, es);
    if j < |es| {
      MergeAt(n.log, n.unstableIndex, p, es);
      assert es[j..] == es[j..j + (|es| - j)];
      TornLog(c, n, v, m, |es| - j, Merge(n.log, n.unstableIndex, p, es).value.0);
    } else {
      AgreedPrefix(c, n, v, m);
      MergeNothing(n.log, n.unstableIndex, p, es);
    }
  }

  // --------------------------------------------------------- AppendEntries

  /** What was committed stays committed in the merged log. */
  lemma CommitSurvives(c: Core, l: Log, r: Log, t: nat, u: nat, i: nat, k: nat)
    requires Inv(c) && CommittedBy(c, t, l, i) && t <= u && u in c.tlog && Shares(r, c.tlog[u], k)
    requires r == l || (r == c.tlog[u][..k] && CommonWithin(l, c.tlog[u], k))
    ensures i <= |r| && CommittedBy(c, t, r, i)
  {
    hide Inv;
    CommittedInLeader(c, t, l, i, u);
    if r != l {
      SharesLess(r, c.tlog[u], i, k);
      CommittedCopy(c, t, l, r, i);
    }
  }

  lemma MergedMatchable(c: Core, n: Node, v: Id, m: Message)
    requires Accepting(c, n, v, m) && EntriesOk(m.body.prevIndex, m.body.entries) && n.currentTerm == m.term
    requires Merge(n.log, n.unstableIndex, m.body.prevIndex, m.body.entries).Some?
    ensures var r := MergedNode(n, m);
            && Base(r.log) <= |c.committed| && r.log[0] == n.log[0]
            && Matchable(c, v, m.body.prevIndex + |m.body.entries|, Full(c.committed, r.log))
            && Shares(Full(c.committed, r.log), c.tlog[m.term], m.body.prevIndex + |m.body.entries|)
  {
    hide Inv, Merge;
    MergedLog(c, n, v, m);
  }

  lemma MergedCommit(c: Core, n: Node, v: Id, m: Message)
    requires Accepting(c, n, v, m) && EntriesOk(m.body.prevIndex, m.body.entries) && n.currentTerm == m.term
    requires Merge(n.log, n.unstableIndex, m.body.prevIndex, m.body.entries).Some?
    ensures var r := MergedNode(n, m);
            && Base(r.log) <= |c.committed|
            && n.commitIndex <= r.commitIndex <= |Full(c.committed, r.log)| && r.commitIndex <= |c.committed|
            && CommittedBy(c, m.term, Full(c.committed, r.log), r.commitIndex)
  {
    hide Inv, Merge, NodeOk, CommittedBy, Full, CommonWithin, TermIn, TermAt;
    NodeBasics(c, n, v);
    NodeLog(c, n, v);
    NodeCommit(c, n, v);
    var r := MergedNode(n, m);
    var k := m.body.prevIndex + |m.body.entries|;
    MergedMatchable(c, n, v, m);
    var l := Full(c.committed, r.log);
    FullLog(c.committed, r.log);
    CommitSurvives(c, c.log[v], l, m.term, m.term, n.commitIndex, k);
    if m.body.commit > n.commitIndex {
      SharesLess(l, c.tlog[m.term], m.body.commit, k);
      CommittedCopy(c, m.term, c.tlog[m.term], l, m.body.commit);
    }
  }

  lemma MatchedView(c: Core, n: Node, r: Node, v: Id, k: nat)
    requires NodeOk(c, n, v) && n.role == Follower && LogOk(r.log) && Base(r.log) <= |c.committed| && r.log[0] == n.log[0]
    requires r == n.(log := r.log, unstableIndex := r.unstableIndex, commitIndex := r.commitIndex)
    requires var l := Full(c.committed, r.log);
             n.commitIndex <= r.commitIndex <= |l| && r.commitIndex <= |c.committed| && CommittedBy(c, n.currentTerm, l, r.commitIndex)
    requires Extends(c, Match(c, v, k, Full(c.committed, r.log)))
    ensures NodeOk(Match(c, v, k, Full(c.committed, r.log)), r, v)
  {
    hide Extends, CommittedBy;
    CommittedStays(c, Match(c, v, k, Full(c.committed, r.log)), n.currentTerm, Full(c.committed, r.log), r.commitIndex);
  }

  lemma AcceptOk(c: Core, n: Node, v: Id, m: Message)
    requires Accepting(c, n, v, m) && EntriesOk(m.body.prevIndex, m.body.entries) && n.currentTerm == m.term && n.role == Follower
    requires Merge(n.log, n.unstableIndex, m.body.prevIndex, m.body.entries).Some?
    ensures var r := MergedNode(n, m);
            Base(r.log) <= |c.committed|
            && var d := Match(c, v, m.body.prevIndex + |m.body.entries|, Full(c.committed, r.log));
               Inv(d) && By(c, d, v) && NodeOk(d, r, v)
  {
    hide Inv, By, Merge, NodeOk, Extends, Full, CommittedBy, Match, TermIn, AppendOk, Matchable;
    NodeBasics(c, n, v);
    var r := MergedNode(n, m);
    var k := m.body.prevIndex + |m.body.entries|;
    MergedMatchable(c, n, v, m);
    MergedCommit(c, n, v, m);
    var l := Full(c.committed, r.log);
    MatchKeeps(c, v, k, l);
    MatchBy(c, v, k, l);
    MatchedView(c, n, r, v, k);
  }

  lemma FollowOk(c: Core, n: Node, v: Id, m: Message)
    requires Inv(c) && NodeOk(c, n, v) && m.term >= n.currentTerm && MsgOk(c, m)
    ensures var d := Raise(c, v, m.term);
            var f := BecomeFollower(n, m.term).(leaderId := m.from);
            Inv(d) && By(c, d, v) && NodeOk(d, f, v) && MsgOk(d, m) && f.log == n.log && f.role == Follower && f.currentTerm == m.term
            && f.msgs == n.msgs && f.unstableIndex == n.unstableIndex && d.committed == c.committed && d.tlog == c.tlog
  {
    hide Inv, By, MsgOk, Extends;
    StepDownOk(c, n, v, m.term);
    ByExtends(c, Raise(c, v, m.term), v);
    MsgStays(c, Raise(c, v, m.term), m);
  }

  lemma AcceptedStepOk(c: Core, n: Node, v: Id, m: Message)
    requires Accepting(c, n, v, m) && EntriesOk(m.body.prevIndex, m.body.entries) && n.currentTerm == m.term && n.role == Follower
    requires Merge(n.log, n.unstableIndex, m.body.prevIndex, m.body.entries).Some? && n.msgs == [] && MsgOk(c, m) && m.to == v
    ensures var r := Send(MergedNode(n, m), m.from, AppendEntriesResponse(true, m.body.prevIndex + |m.body.entries|, m.body.readCtx));
            Base(r.log) <= |c.committed|
            && StepOk(c, Match(c, v, m.body.prevIndex + |m.body.entries|, Full(c.committed, r.log)), r, v)
  {
    hide Inv, By, Merge, NodeOk;
    NodeBasics(c, n, v);
    AcceptOk(c, n, v, m);
    var g := MergedNode(n, m);
    var k := m.body.prevIndex + |m.body.entries|;
    SendOk(Match(c, v, k, Full(c.committed, g.log)), g, v, m.from, AppendEntriesResponse(true, k, m.body.readCtx));
  }

  lemma StaleAppendOk(c: Core, n: Node, v: Id, m: Message)
    requires Inv(c) && NodeOk(c, n, v) && n.msgs == [] && m.body.AppendEntries? && MsgOk(c, m) && m.to == v
    ensures v in c.term && v in c.log && n.id == v
    ensures var r := Send(n, m.from, AppendEntriesResponse(false, 0, 0)); StepOk(c, Raise(c, v, r.currentTerm), r, v)
  {
    hide Inv, By, NodeOk;
    NodeBasics(c, n, v);
    ByRefl(c, v);
    RaiseSame(c, v);
    SendOk(c, n, v, m.from, AppendEntriesResponse(false, 0, 0));
  }

  lemma RefusedAppendOk(c: Core, n: Node, v: Id, m: Message)
    requires Inv(c) && NodeOk(c, n, v) && n.msgs == [] && m.body.AppendEntries? && MsgOk(c, m) && m.to == v && m.term >= n.currentTerm
    ensures v in c.term && v in c.log && n.id == v
    ensures var r := Send(BecomeFollower(n, m.term).(leaderId := m.from), m.from, AppendEntriesResponse(false, 0, m.body.readCtx));
            StepOk(c, Raise(c, v, r.currentTerm), r, v)
  {
    hide Inv, By, NodeOk;
    NodeBasics(c, n, v);
    FollowOk(c, n, v, m);
    SendOk(Raise(c, v, m.term), BecomeFollower(n, m.term).(leaderId := m.from), v, m.from, AppendEntriesResponse(false, 0, m.body.readCtx));
  }

  lemma TakenAppendOk(c: Core, n: Node, v: Id, m: Message, r: Node)
    requires Inv(c) && NodeOk(c, n, v) && n.msgs == [] && m.body.AppendEntries? && MsgOk(c, m) && m.to == v && LogOk(n.log)
    requires EntriesOk(m.body.prevIndex, m.body.entries) && m.term >= n.currentTerm && Accepts(n, m) && AfterAppend(n, m) == Some(r)
    ensures v in c.term && v in c.log && n.id == v && StepOk(c, HistMatch(c, n, r, m.body.prevIndex + |m.body.entries|), r, v)
  {
    hide Inv, By, NodeOk, Merge, Extends, AfterAppend, TermIn;
    NodeBasics(c, n, v);
    var d := Raise(c, v, m.term);
    FollowOk(c, n, v, m);
    AppendAnswer(n, m);
    AcceptedStepOk(d, BecomeFollower(n, m.term).(leaderId := m.from), v, m);
    StepTrans(c, d, Match(d, v, m.body.prevIndex + |m.body.entries|, Full(c.committed, r.log)), r, v);
  }

  /** handleAppendEntries, wherever it does not panic. */
  lemma AppendEntriesOk(c: Core, n: Node, v: Id, m: Message)
    requires Inv(c) && NodeOk(c, n, v) && n.msgs == [] && m.body.AppendEntries? && MsgOk(c, m) && m.to == v
    requires EntriesOk(m.body.prevIndex, m.body.entries) && AfterAppend(n, m).Some?
    ensures var r := AfterAppend(n, m).value; StepOk(c, History(c, n, r, Deliver(v, m)), r, v)
  {
    hide Inv, By, NodeOk, Merge, Extends, AfterAppend, StepOk, HistMatch, MsgOk, Raise;
    NodeBasics(c, n, v);
    if m.term < n.currentTerm {
      StaleAnswer(n, m);
      StaleAppendOk(c, n, v, m);
    } else if Accepts(n, m) {
      TakenAppendOk(c, n, v, m, AfterAppend(n, m).value);
    } else {
      AppendAnswer(n, m);
      RefusedAppendOk(c, n, v, m);
    }
  }

  // ------------------------------------------------------------ acknowledgements

  lemma ReadFieldsOk(c: Core, n: Node, v: Id, r: Node)
    requires NodeOk(c, n, v) && r == n.(pendingReads := r.pendingReads, readStates := r.readStates)
    ensures NodeOk(c, r, v)
  {
  }

  /** A leader may record what a peer acknowledged. */
  lemma ProgressOk(c: Core, n: Node, v: Id, p: Id, i: nat, j: nat)
    requires NodeOk(c, n, v) && n.role == Leader && i <= |c.log[v]| && Covered(c, p, n.currentTerm, i) && j <= |c.log[v]|
    ensures NodeOk(c, n.(matchIndex := if i > At(n.matchIndex, p) then n.matchIndex[p := i] else n.matchIndex,
                         nextIndex := n.nextIndex[p := j + 1]), v)
  {
    var r := n.(matchIndex := if i > At(n.matchIndex, p) then n.matchIndex[p := i] else n.matchIndex,
                nextIndex := n.nextIndex[p := j + 1]);
    forall q | q in n.peers
      ensures PeerView(c, r, |c.log[v]|, q)
    {
      assert PeerView(c, n, |c.log[v]|, q);
    }
  }

  lemma BackOffOk(c: Core, n: Node, v: Id, p: Id)
    requires NodeOk(c, n, v) && n.role == Leader
    ensures NodeOk(c, n.(nextIndex := if At(n.nextIndex, p) > 1 then n.nextIndex[p := At(n.nextIndex, p) - 1] else n.nextIndex,
                         sentIndex := n.sentIndex[p := 0]), v)
  {
    var r := n.(nextIndex := if At(n.nextIndex, p) > 1 then n.nextIndex[p := At(n.nextIndex, p) - 1] else n.nextIndex,
                sentIndex := n.sentIndex[p := 0]);
    forall q | q in n.peers
      ensures PeerView(c, r, |c.log[v]|, q)
    {
      assert PeerView(c, n, |c.log[v]|, q);
    }
  }

  /** The leader's state once an acknowledgement is recorded, before it looks for commits. */
  function Acknowledged(n: Node, m: Message): Node
    requires m.body.AppendEntriesResponse?
  {
    var a := if m.body.readCtx != 0 then AckRead(n, m.body.readCtx, m.from) else n;
    a.(matchIndex := if m.body.matchIndex > At(a.matchIndex, m.from) then a.matchIndex[m.from := m.body.matchIndex]
                     else a.matchIndex,
       nextIndex := a.nextIndex[m.from := m.body.matchIndex + 1])
  }

  lemma AcknowledgedOk(c: Core, n: Node, v: Id, m: Message)
    requires NodeOk(c, n, v) && n.role == Leader && m.body.AppendEntriesResponse? && MsgOk(c, m)
    requires m.term == n.currentTerm && m.body.success
    ensures NodeOk(c, Acknowledged(n, m), v)
  {
    hide NodeOk;
    LeaderLog(c, n, v);
    var a := if m.body.readCtx != 0 then AckRead(n, m.body.readCtx, m.from) else n;
    AckReadFields(n, m.body.readCtx, m.from);
    ReadFieldsOk(c, n, v, a);
    ProgressOk(c, a, v, m.from, m.body.matchIndex, m.body.matchIndex);
  }

  lemma AcknowledgedFields(n: Node, m: Message)
    requires m.body.AppendEntriesResponse?
    ensures var b := Acknowledged(n, m);
            b.id == n.id && b.log == n.log && b.role == n.role && b.msgs == n.msgs && b.commitIndex == n.commitIndex && b.currentTerm == n.currentTerm
  {
  }

  lemma AckedOk(c: Core, n: Node, v: Id, m: Message)
    requires Inv(c) && NodeOk(c, n, v) && n.msgs == [] && n.role == Leader && m.body.AppendEntriesResponse? && MsgOk(c, m) && m.to == v
    requires m.term == n.currentTerm && m.body.success
    ensures LogOk(Acknowledged(n, m).log)
    ensures var r := AdvanceCommit(Acknowledged(n, m)); StepOk(c, HistCommit(c, n, r), r, v) && r.currentTerm == n.currentTerm
  {
    hide Inv, By, NodeOk, Extends, Acknowledged, CommitUpTo;
    NodeBasics(c, n, v);
    AcknowledgedFields(n, m);
    AcknowledgedOk(c, n, v, m);
    AdvanceCommitOk(c, Acknowledged(n, m), v);
  }

  lemma RejectedOk(c: Core, n: Node, v: Id, m: Message)
    requires Inv(c) && NodeOk(c, n, v) && n.msgs == [] && n.role == Leader && m.body.AppendEntriesResponse? && MsgOk(c, m) && m.to == v
    requires m.term == n.currentTerm && !m.body.success
    ensures StepOk(c, HistCommit(c, n, AfterAppendResponse(n, m)), AfterAppendResponse(n, m), v)
    ensures AfterAppendResponse(n, m).currentTerm == n.currentTerm
  {
    hide Inv, By, NodeOk, Extends, SendAppend, AckRead;
    NodeBasics(c, n, v);
    ByRefl(c, v);
    var a := if m.body.readCtx != 0 then AckRead(n, m.body.readCtx, m.from) else n;
    AckReadFields(n, m.body.readCtx, m.from);
    ReadFieldsOk(c, n, v, a);
    BackOffOk(c, a, v, m.from);
    var b := a.(nextIndex := if At(a.nextIndex, m.from) > 1 then a.nextIndex[m.from := At(a.nextIndex, m.from) - 1] else a.nextIndex,
                sentIndex := a.sentIndex[m.from := 0]);
    SendAppendOk(c, b, v, m.from, 0);
    assert AfterAppendResponse(n, m) == SendAppend(b, m.from, 0);
  }

  lemma AppendResponseOk(c: Core, n: Node, v: Id, m: Message)
    requires Inv(c) && NodeOk(c, n, v) && n.msgs == [] && m.body.AppendEntriesResponse? && MsgOk(c, m) && m.to == v
    ensures StepOk(c, History(c, n, AfterAppendResponse(n, m), Deliver(v, m)), AfterAppendResponse(n, m), v)
  {
    hide Inv, By, NodeOk, Extends, CommitUpTo;
    NodeBasics(c, n, v);
    if m.term > n.currentTerm {
      StepDownOk(c, n, v, m.term);
    } else {
      RaiseSame(c, v);
      if m.term < n.currentTerm || n.role != Leader {
        ByRefl(c, v);
      } else if m.body.success {
        AckedOk(c, n, v, m);
        assert AfterAppendResponse(n, m) == AdvanceCommit(Acknowledged(n, m));
      } else {
        RejectedOk(c, n, v, m);
      }
    }
  }

  // ------------------------------------------------------------------ snapshots

  lemma InstallMatchable(c: Core, n: Node, v: Id, m: Message)
    requires Inv(c) && NodeOk(c, n, v) && m.body.InstallSnapshot? && InstallOk(c, m) && n.currentTerm == m.term
    requires m.body.snap.lastIndex > Base(n.log) && Ends(n.log, m.body.snap)
    ensures var i := m.body.snap.lastIndex;
            && Shares(c.committed, c.tlog[m.term], i)
            && Matchable(c, v, i, c.committed[..i])
            && CommittedBy(c, m.term, c.committed[..i], i)
  {
    hide Inv;
    var i := m.body.snap.lastIndex;
    ViewLog(c, n, v);
    CommittedInLeader(c, m.term, c.committed, i, m.term);
    EndsWithin(c.log[v], c.tlog[m.term], c.committed, i);
    assert c.committed[..i][..i] == c.committed[..i];
    CommittedCopy(c, m.term, c.committed, c.committed[..i], i);
  }

  /** A log that stops at i, or has another term there than the leader's, has nothing in common with it past i. */
  lemma EndsWithin(l: Log, x: Log, committed: Log, i: nat)
    requires 1 <= i && Shares(committed, x, i) && (|l| <= i || TermAt(l, i) != TermAt(committed, i))
    ensures CommonWithin(l, x, i)
  {
    SharesAt(committed, x, i, i);
    forall m: nat | Shares(l, x, m)
      ensures m <= i
    {
      if m > i { SharesAt(l, x, m, i); }
    }
  }

  lemma SharesAt(a: Log, b: Log, m: nat, i: nat)
    requires Shares(a, b, m) && 1 <= i <= m
    ensures a[i - 1] == b[i - 1]
  {
    assert a[i - 1] == a[..m][i - 1] == b[..m][i - 1];
  }

  /** What the node has committed is not past the snapshot. */
  lemma CommittedBefore(c: Core, n: Node, v: Id, m: Message)
    requires Inv(c) && NodeOk(c, n, v) && m.body.InstallSnapshot? && InstallOk(c, m)
    requires m.body.snap.lastIndex > Base(n.log) && Ends(n.log, m.body.snap)
    ensures n.commitIndex <= m.body.snap.lastIndex
  {
    hide Inv, NodeOk;
    NodeBasics(c, n, v);
    if n.commitIndex > m.body.snap.lastIndex { CommittedTerm(c, n, v, m.body.snap.lastIndex); }
  }

  lemma CommittedTerm(c: Core, n: Node, v: Id, i: nat)
    requires Inv(c) && NodeOk(c, n, v) && 1 <= i && Base(n.log) <= i <= n.commitIndex
    ensures LogOk(n.log) && i <= n.commitIndex <= LastIndex(n.log) && TermIn(n.log, i) == TermAt(c.committed, i)
  {
    hide Inv, NodeOk;
    NodeBasics(c, n, v);
    NodeLog(c, n, v);
    NodeCommit(c, n, v);
    CommittedInLog(c, n.currentTerm, c.log[v], n.commitIndex);
    SharesAt(c.log[v], c.committed, n.commitIndex, i);
  }

  lemma InstalledOk(c: Core, n: Node, v: Id, m: Message)
    requires Inv(c) && NodeOk(c, n, v) && m.body.InstallSnapshot? && InstallOk(c, m) && n.currentTerm == m.term && n.role == Follower
    requires m.body.snap.lastIndex > Base(n.log) && Ends(n.log, m.body.snap)
    ensures var i := m.body.snap.lastIndex;
            var d := Match(c, v, i, c.committed[..i]);
            Inv(d) && By(c, d, v) && NodeOk(d, InstalledNode(n, m), v)
  {
    hide Inv, By, NodeOk, Match, Matchable;
    var i := m.body.snap.lastIndex;
    var l := c.committed[..i];
    NodeBasics(c, n, v);
    InstallMatchable(c, n, v, m);
    MatchKeeps(c, v, i, l);
    MatchBy(c, v, i, l);
    InstalledNodeOk(c, n, v, m);
  }

  lemma InstalledNodeOk(c: Core, n: Node, v: Id, m: Message)
    requires Inv(c) && NodeOk(c, n, v) && m.body.InstallSnapshot? && InstallOk(c, m) && n.currentTerm == m.term && n.role == Follower
    requires m.body.snap.lastIndex > Base(n.log) && Ends(n.log, m.body.snap)
    requires var l := c.committed[..m.body.snap.lastIndex]; Extends(c, Match(c, v, |l|, l)) && CommittedBy(c, m.term, l, |l|)
    ensures NodeOk(Match(c, v, m.body.snap.lastIndex, c.committed[..m.body.snap.lastIndex]), InstalledNode(n, m), v)
  {
    hide Inv, Extends, CommittedBy, Ends;
    var i := m.body.snap.lastIndex;
    var l := c.committed[..i];
    CommittedBefore(c, n, v, m);
    CommittedStays(c, Match(c, v, i, l), m.term, l, i);
  }

  /** A node may tell the leader of its term about its own snapshot boundary. */
  lemma BoundaryOk(c: Core, n: Node, v: Id)
    requires Inv(c) && NodeOk(c, n, v) && n.currentTerm in c.tlog
    ensures var d := Match(c, v, Base(n.log), c.log[v]); Inv(d) && By(c, d, v) && NodeOk(d, n, v)
  {
    hide Inv, By;
    var k := Base(n.log);
    var d := Match(c, v, k, c.log[v]);
    BaseInLeader(c, n, v, n.currentTerm);
    MatchKeeps(c, v, k, c.log[v]);
    MatchBy(c, v, k, c.log[v]);
    LogViewStays(c, d, n.log, n.snapshot, v);
    LeaderViewKept(c, d, n, v);
    CommittedStays(c, d, n.currentTerm, c.log[v], n.commitIndex);
  }

  /** An answer that gives a node's own snapshot boundary. */
  lemma BoundaryAnswerOk(c: Core, n: Node, v: Id, w: Id)
    requires Inv(c) && NodeOk(c, n, v) && n.msgs == [] && w in c.ids && w != v
    ensures var r := Send(n, w, InstallSnapshotResponse(Base(n.log)));
            LogOk(r.log) && StepOk(c, HistMatch(c, n, r, Base(r.log)), r, v)
  {
    hide Inv, By, NodeOk, Extends;
    NodeBasics(c, n, v);
    NodeLog(c, n, v);
    RaiseSame(c, v);
    var k := Base(n.log);
    var body := InstallSnapshotResponse(k);
    if n.currentTerm in c.tlog {
      var d := Match(c, v, k, c.log[v]);
      BoundaryOk(c, n, v);
      BoundaryMessage(d, n, v, w);
      SendOk(d, n, v, w, body);
    } else {
      ByRefl(c, v);
      BoundaryMessage(c, n, v, w);
      SendOk(c, n, v, w, body);
    }
  }

  lemma BoundaryMessage(c: Core, n: Node, v: Id, w: Id)
    requires NodeOk(c, n, v) && w in c.ids && w != v
    requires n.currentTerm in c.tlog ==> Acc(c, v, n.currentTerm) >= Base(n.log)
    ensures MsgOk(c, Message(v, w, n.currentTerm, InstallSnapshotResponse(Base(n.log))))
  {
    BaseCommitted(c, n, v);
  }

  /** The new snapshot's answer. */
  lemma InstalledStepOk(c: Core, n: Node, v: Id, m: Message)
    requires Inv(c) && NodeOk(c, n, v) && n.msgs == [] && m.body.InstallSnapshot? && MsgOk(c, m) && m.to == v
    requires n.currentTerm == m.term && n.role == Follower && m.body.snap.lastIndex > Base(n.log) && Ends(n.log, m.body.snap)
    ensures var r := Send(InstalledNode(n, m), m.from, InstallSnapshotResponse(m.body.snap.lastIndex));
            StepOk(c, HistMatch(c, n, r, Base(r.log)), r, v)
  {
    hide Inv, By, NodeOk, Extends;
    NodeBasics(c, n, v);
    RaiseSame(c, v);
    var i := m.body.snap.lastIndex;
    var g := InstalledNode(n, m);
    InstalledOk(c, n, v, m);
    assert Full(c.committed, g.log) == c.committed[..i];
    var d := Match(c, v, i, c.committed[..i]);
    BoundaryMessage(d, g, v, m.from);
    SendOk(d, g, v, m.from, InstallSnapshotResponse(i));
  }

  /** handleInstallSnapshot, over a log in which nothing follows the snapshot. */
  lemma InstallStepOk(c: Core, n: Node, v: Id, m: Message)
    requires Inv(c) && NodeOk(c, n, v) && n.msgs == [] && m.body.InstallSnapshot? && MsgOk(c, m) && m.to == v && Installable(n, m)
    ensures var r := AfterInstall(n, m); StepOk(c, History(c, n, r, Deliver(v, m)), r, v)
  {
    hide Inv, By, NodeOk, Extends, AfterInstall, Raise, Match;
    NodeBasics(c, n, v);
    InstallAnswer(n, m);
    var r := AfterInstall(n, m);
    if m.term < n.currentTerm {
      BoundaryAnswerOk(c, n, v, m.from);
    } else {
      var d := Raise(c, v, m.term);
      var f := BecomeFollower(n, m.term).(leaderId := m.from);
      FollowOk(c, n, v, m);
      NodeBasics(d, f, v);
      RaiseSame(d, v);
      if m.body.snap.lastIndex <= Base(n.log) {
        BoundaryAnswerOk(d, f, v, m.from);
      } else {
        InstalledStepOk(d, f, v, m);
      }
      assert HistMatch(c, n, r, Base(r.log)) == HistMatch(d, f, r, Base(r.log));
      StepTrans(c, d, HistMatch(d, f, r, Base(r.log)), r, v);
    }
  }

  function InstallAcknowledged(n: Node, m: Message): Node
    requires m.body.InstallSnapshotResponse?
  {
    n.(matchIndex := if m.body.matchIndex > At(n.matchIndex, m.from) then n.matchIndex[m.from := m.body.matchIndex]
                     else n.matchIndex,
       nextIndex := if m.body.matchIndex + 1 > At(n.nextIndex, m.from) then n.nextIndex[m.from := m.body.matchIndex + 1]
                    else n.nextIndex)
  }

  lemma InstallAcknowledgedOk(c: Core, n: Node, v: Id, m: Message)
    requires Inv(c) && NodeOk(c, n, v) && n.role == Leader && m.body.InstallSnapshotResponse? && MsgOk(c, m) && m.term == n.currentTerm
    ensures NodeOk(c, InstallAcknowledged(n, m), v)
  {
    hide Inv;
    var i := m.body.matchIndex;
    CommittedInLeader(c, m.term, c.committed, i, m.term);
    var r := InstallAcknowledged(n, m);
    forall q | q in n.peers
      ensures PeerView(c, r, |c.log[v]|, q)
    {
      assert PeerView(c, n, |c.log[v]|, q);
    }
  }

  lemma InstallResponseOk(c: Core, n: Node, v: Id, m: Message)
    requires Inv(c) && NodeOk(c, n, v) && n.msgs == [] && m.body.InstallSnapshotResponse? && MsgOk(c, m) && m.to == v
    ensures var r := AfterInstallResponse(n, m); StepOk(c, History(c, n, r, Deliver(v, m)), r, v)
  {
    hide Inv, By, NodeOk, Extends, CommitUpTo;
    NodeBasics(c, n, v);
    if m.term > n.currentTerm {
      StepDownOk(c, n, v, m.term);
    } else {
      RaiseSame(c, v);
      if m.term < n.currentTerm || n.role != Leader {
        ByRefl(c, v);
      } else {
        InstallAcknowledgedOk(c, n, v, m);
        AdvanceCommitOk(c, InstallAcknowledged(n, m), v);
        assert AfterInstallResponse(n, m) == AdvanceCommit(InstallAcknowledged(n, m));
      }
    }
  }

  // ------------------------------------------------------------ leader operations

  lemma ProposedLog(committed: Log, log: seq<Entry>, es: seq<Entry>)
    requires LogOk(log) && LogOk(log + es) && Base(log) <= |committed|
    ensures Base(log + es) == Base(log) && Full(committed, log + es) == Full(committed, log) + es
  {
    assert (log + es)[1..] == log[1..] + es;
  }

  lemma ProposedPeers(c: Core, n: Node, v: Id, es: seq<Entry>)
    requires NodeOk(c, n, v) && n.role == Leader && Appendable(c, v, es) && LogOk(n.log + es) && Extends(c, Append(c, v, es))
    ensures LeaderView(Append(c, v, es), n.(log := n.log + es), v)
  {
    hide LogView, VoteView, CandidateView, CommitView, Covered, Extends;
    NodeBasics(c, n, v);
    var d := Append(c, v, es);
    forall p | p in n.peers
      ensures PeerView(d, n.(log := n.log + es), |d.log[v]|, p)
    {
      assert PeerView(c, n, |c.log[v]|, p);
      CoveredStays(c, d, p, n.currentTerm, At(n.matchIndex, p));
    }
  }

  lemma ProposedView(c: Core, n: Node, v: Id, es: seq<Entry>)
    requires NodeOk(c, n, v) && n.role == Leader && Appendable(c, v, es) && LogOk(n.log + es) && Extends(c, Append(c, v, es))
    ensures NodeOk(Append(c, v, es), n.(log := n.log + es), v)
  {
    hide Extends, LeaderView, CommittedBy, Full;
    var d := Append(c, v, es);
    var l := c.log[v];
    ProposedLog(c.committed, n.log, es);
    CommittedStays(c, d, n.currentTerm, l, n.commitIndex);
    assert (l + es)[..n.commitIndex] == l[..n.commitIndex];
    CommittedCopy(d, n.currentTerm, l, l + es, n.commitIndex);
    ProposedPeers(c, n, v, es);
  }

  lemma LeaderAppends(c: Core, n: Node, v: Id, es: seq<Entry>)
    requires NodeOk(c, n, v) && n.role == Leader
    requires forall k :: 0 <= k < |es| ==> es[k].term == n.currentTerm && es[k].index == LastIndex(n.log) + 1 + k
    ensures Appendable(c, v, es) && LogOk(n.log + es) && c.term[v] in c.lead && c.lead[c.term[v]] == v
  {
    hide CommittedBy, Covered, PeerView;
    ViewLog(c, n, v);
  }

  lemma ProposedOk(c: Core, n: Node, v: Id, datas: seq<Bytes>)
    requires Inv(c) && NodeOk(c, n, v) && n.role == Leader
    ensures var es := NewEntries(n.currentTerm, LastIndex(n.log) + 1, datas);
            LogOk(n.log + es) && Inv(Append(c, v, es)) && By(c, Append(c, v, es), v) && NodeOk(Append(c, v, es), n.(log := n.log + es), v)
  {
    hide Inv, By, NodeOk, Append, Full, Extends;
    NodeBasics(c, n, v);
    var es := NewEntries(n.currentTerm, LastIndex(n.log) + 1, datas);
    LeaderAppends(c, n, v, es);
    AppendKeeps(c, v, es);
    AppendBy(c, v, es);
    ProposedView(c, n, v, es);
  }

  /** ProposeBatch. */
  lemma ProposeOk(c: Core, n: Node, v: Id, datas: seq<Bytes>)
    requires Inv(c) && NodeOk(c, n, v) && n.msgs == []
    ensures var r := AfterPropose(n, datas); StepOk(c, HistAppend(c, n, r), r, v)
  {
    hide Inv, By, NodeOk, Extends, CommitUpTo, Append, SendAppends, Commit, StepOk, NewEntries;
    NodeBasics(c, n, v);
    if n.role != Leader {
      IdleStep(c, n, v);
    } else {
      var es := NewEntries(n.currentTerm, LastIndex(n.log) + 1, datas);
      var p := n.(log := n.log + es);
      ProposedOk(c, n, v, datas);
      assert p.log[|n.log|..] == es;
      if n.peers == [] { ProposedAloneOk(c, p, v, es); } else { ProposedSends(c, p, v, es); }
    }
  }

  lemma IdleStep(c: Core, n: Node, v: Id)
    requires Inv(c) && NodeOk(c, n, v) && n.msgs == []
    ensures StepOk(c, c, n, v)
  {
    hide Inv, NodeOk, By;
    ByRefl(c, v);
  }

  lemma ProposedAloneOk(c: Core, p: Node, v: Id, es: seq<Entry>)
    requires v in c.term && v in c.log && p.msgs == [] && p.role == Leader
    requires var d := Append(c, v, es); Inv(d) && By(c, d, v) && NodeOk(d, p, v)
    ensures LogOk(p.log)
    ensures var r := AdvanceCommit(p); StepOk(c, HistCommit(Append(c, v, es), p, r), r, v)
  {
    hide Inv, By, NodeOk, Extends, CommitUpTo, Append, Commit;
    var d := Append(c, v, es);
    NodeBasics(d, p, v);
    AdvanceCommitOk(d, p, v);
    StepTrans(c, d, HistCommit(d, p, AdvanceCommit(p)), AdvanceCommit(p), v);
  }

  lemma ProposedSends(c: Core, p: Node, v: Id, es: seq<Entry>)
    requires v in c.term && v in c.log && p.msgs == [] && p.role == Leader
    requires var d := Append(c, v, es); Inv(d) && By(c, d, v) && NodeOk(d, p, v)
    ensures LogOk(p.log)
    ensures var r := SendAppends(p, p.peers, 0); StepOk(c, HistCommit(Append(c, v, es), p, r), r, v)
  {
    hide Inv, By, NodeOk, Extends, Append, Commit, SendAppends;
    var d := Append(c, v, es);
    NodeBasics(d, p, v);
    SendAppendsOk(d, p, v, p.peers, 0);
    SendAppendsSame(p, p.peers, 0);
  }

  lemma HeartbeatOk(c: Core, n: Node, v: Id)
    requires Inv(c) && NodeOk(c, n, v) && n.msgs == []
    ensures StepOk(c, c, AfterHeartbeat(n), v)
  {
    hide Inv, By, NodeOk;
    NodeBasics(c, n, v);
    ByRefl(c, v);
    if n.role == Leader { SendAppendsOk(c, n, v, n.peers, 0); }
  }

  /** RequestReadIndex. */
  lemma ReadOk(c: Core, n: Node, v: Id, ctx: nat)
    requires Inv(c) && NodeOk(c, n, v) && n.msgs == []
    ensures StepOk(c, c, AfterReadRequest(n, ctx), v)
  {
    hide Inv, By, NodeOk, SendAppends;
    NodeBasics(c, n, v);
    ByRefl(c, v);
    if n.role == Leader {
      if HasMajority(n, 1) {
        ReadFieldsOk(c, n, v, AfterReadRequest(n, ctx));
      } else {
        var p := n.(pendingReads := n.pendingReads[ctx := PendingRead(n.commitIndex, {n.id})]);
        ReadFieldsOk(c, n, v, p);
        SendAppendsOk(c, p, v, n.peers, ctx);
      }
    }
  }

  // -------------------------------------------------------- compaction and restart

  lemma CompactedShape(log: seq<Entry>, index: nat)
    requires LogOk(log) && Base(log) < index <= LastIndex(log)
    ensures var r := [Entry(TermIn(log, index), index, [])] + log[index - Base(log) + 1..];
            LogOk(r) && Base(r) == index && LastIndex(r) == LastIndex(log) && r[0].term == TermIn(log, index)
            && r[1..] == EntriesIn(log, index, LastIndex(log))
  {
    var r := [Entry(TermIn(log, index), index, [])] + log[index - Base(log) + 1..];
    assert r[1..] == log[index - Base(log) + 1..];
  }

  lemma CompactedLog(c: Core, n: Node, v: Id, index: nat)
    requires Inv(c) && NodeOk(c, n, v) && Base(n.log) < index <= n.commitIndex
    ensures n.commitIndex <= LastIndex(n.log)
    ensures var log := [Entry(TermIn(n.log, index), index, [])] + n.log[index - Base(n.log) + 1..];
            LogView(c, log, Snapshot(index, TermIn(n.log, index), []), v)
  {
    hide Inv, NodeOk, CommittedBy, LogOk, TermIn, EntriesIn, Full, TermAt;
    NodeBasics(c, n, v);
    NodeLog(c, n, v);
    NodeCommit(c, n, v);
    var l := c.log[v];
    CommittedInLog(c, n.currentTerm, l, n.commitIndex);
    SharesLess(l, c.committed, index, n.commitIndex);
    CompactedShape(n.log, index);
    EntriesFull(c, n, v, index);
    CompactedFull(c.committed, l, [Entry(TermIn(n.log, index), index, [])] + n.log[index - Base(n.log) + 1..], index);
  }

  lemma CompactedFull(committed: Log, l: Log, log: seq<Entry>, index: nat)
    requires LogOk(log) && Base(log) == index && 0 < index && Shares(l, committed, index) && log[1..] == l[index..]
    ensures Full(committed, log) == l && TermAt(l, index) == TermAt(committed, index)
  {
    assert l == l[..index] + l[index..];
    assert l[index - 1] == l[..index][index - 1] == committed[..index][index - 1];
  }

  lemma CompactedNode(c: Core, n: Node, v: Id, log: seq<Entry>, unstable: nat, snap: Snapshot)
    requires NodeOk(c, n, v) && LogView(c, log, snap, v) && Base(log) <= n.commitIndex
    ensures NodeOk(c, n.(log := log, unstableIndex := unstable, snapshot := snap), v)
  {
    hide VoteView, CommittedBy, Covered, Full, Reigns;
    var r := n.(log := log, unstableIndex := unstable, snapshot := snap);
    assert Wired(c.ids, r, v) && CandidateView(c, r, v) && CommitView(c, r, v);
    assert LeaderView(c, r, v) by {
      if n.role == Leader {
        forall p | p in n.peers
          ensures PeerView(c, r, |c.log[v]|, p)
        {
          assert PeerView(c, n, |c.log[v]|, p);
        }
      }
    }
  }

  /** CreateSnapshot changes nothing the history can see. */
  lemma CompactOk(c: Core, n: Node, v: Id, index: nat, data: Bytes)
    requires Inv(c) && NodeOk(c, n, v)
    ensures n.commitIndex <= LastIndex(n.log) && NodeOk(c, AfterCompact(n, index, data), v)
    ensures LogOk(AfterCompact(n, index, data).log) && Base(n.log) <= Base(AfterCompact(n, index, data).log)
  {
    hide Inv, NodeOk, TermIn, Full, EntriesIn;
    NodeBasics(c, n, v);
    if Base(n.log) < index <= n.commitIndex {
      var r := AfterCompact(n, index, data);
      CompactedLog(c, n, v, index);
      CompactedShape(n.log, index);
      CompactedNode(c, n, v, r.log, r.unstableIndex, r.snapshot);
      assert r == n.(log := r.log, unstableIndex := r.unstableIndex, snapshot := r.snapshot);
    }
  }
}
