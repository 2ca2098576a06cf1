/**
 * Log matching over every possible run.
 *
 * A link is an entry together with the term of the entry before it.  Links are
 * made only by a leader's proposals; everything else copies them.  So an index and
 * a term have one link ever, and two logs that agree on one entry agree on all the
 * earlier ones that both still hold.
 */
module RaftLinkSteps {
  import opened Bytes
  import opened RaftTypes
  import opened RaftNode
  import opened RaftSteps

  datatype Link = Link(prev: nat, e: Entry)

  function LinkAt(log: seq<Entry>, j: nat): Link
    requires 0 < j < |log|
  {
    Link(log[j - 1].term, log[j])
  }

  ghost predicate Linked(log: seq<Entry>, l: Link) { exists j :: 0 < j < |log| && LinkAt(log, j) == l }

  function SentLink(m: Message, k: nat): Link
    requires m.body.AppendEntries? && k < |m.body.entries|
  {
    Link(if k == 0 then m.body.prevTerm else m.body.entries[k - 1].term, m.body.entries[k])
  }

  ghost predicate Carries(m: Message, l: Link) {
    m.body.AppendEntries? && exists k :: 0 <= k < |m.body.entries| && SentLink(m, k) == l
  }

  // ----------------------------------------------------------------------- sending

  /** An AppendEntries with entries is a stretch of the log, from an index it covers to its end. */
  predicate FromLog(log: seq<Entry>, m: Message)
    requires LogOk(log)
  {
    m.body.AppendEntries? && m.body.entries != [] ==>
      && Base(log) <= m.body.prevIndex <= LastIndex(log)
      && m.body.entries == log[m.body.prevIndex - Base(log) + 1..] && m.body.prevTerm == log[m.body.prevIndex - Base(log)].term
  }

  /** What the node sends comes from its log and its snapshot. */
  predicate OutFrom(n: Node)
    requires LogOk(n.log)
  {
    forall m :: m in n.msgs ==> FromLog(n.log, m) && (m.body.InstallSnapshot? ==> m.body.snap == n.snapshot)
  }

  lemma CarriesLinked(log: seq<Entry>, m: Message, l: Link)
    requires LogOk(log) && FromLog(log, m) && Carries(m, l)
    ensures Linked(log, l)
  {
    var k :| 0 <= k < |m.body.entries| && SentLink(m, k) == l;
    assert LinkAt(log, m.body.prevIndex - Base(log) + 1 + k) == l;
  }

  lemma AppendFrom(n: Node, peer: Id, ctx: nat)
    requires LogOk(n.log) && OutFrom(n)
    ensures SendAppend(n, peer, ctx).log == n.log && OutFrom(SendAppend(n, peer, ctx))
  {
    hide EntriesIn, TermIn, OutFrom, LogOk;
    var prev := if At(n.sentIndex, peer) > Pred(At(n.nextIndex, peer)) then At(n.sentIndex, peer) else Pred(At(n.nextIndex, peer));
    if Pred(At(n.nextIndex, peer)) < Base(n.log) {
      OneMoreOut(n, peer, InstallSnapshot(n.snapshot));
    } else {
      EntriesToEnd(n.log, prev);
      var body := AppendEntries(prev, TermIn(n.log, prev), EntriesIn(n.log, prev, LastIndex(n.log)), n.commitIndex, ctx);
      OneMoreOut(n, peer, body);
      SameOut(Send(n, peer, body), SendAppend(n, peer, ctx));
    }
  }

  lemma OneMoreOut(n: Node, to: Id, body: Body)
    requires LogOk(n.log) && OutFrom(n) && FromLog(n.log, Message(n.id, to, n.currentTerm, body)) && (body.InstallSnapshot? ==> body.snap == n.snapshot)
    ensures OutFrom(Send(n, to, body))
  {
    hide LogOk, FromLog;
  }

  lemma EntriesToEnd(log: seq<Entry>, prev: nat)
    requires LogOk(log) && Base(log) <= prev
    ensures var es := EntriesIn(log, prev, LastIndex(log));
            es != [] ==> prev <= LastIndex(log) && es == log[prev - Base(log) + 1..] && TermIn(log, prev) == log[prev - Base(log)].term
  {
  }

  lemma {:induction false} AppendsFrom(n: Node, to: seq<Id>, ctx: nat)
    requires LogOk(n.log) && OutFrom(n)
    ensures OutFrom(SendAppends(n, to, ctx))
    decreases |to|
  {
    hide SendAppend, OutFrom, LogOk;
    if to != [] {
      AppendFrom(n, to[0], ctx);
      AppendsFrom(SendAppend(n, to[0], ctx), to[1..], ctx);
    }
  }

  lemma {:induction false} BroadcastFrom(n: Node, to: seq<Id>, body: Body)
    requires LogOk(n.log) && OutFrom(n) && !body.AppendEntries? && !body.InstallSnapshot?
    ensures Broadcast(n, to, body).log == n.log && OutFrom(Broadcast(n, to, body))
    decreases |to|
  {
    if to != [] { BroadcastFrom(Send(n, to[0], body), to[1..], body); }
  }

  lemma LeaderFrom(n: Node)
    requires LogOk(n.log) && OutFrom(n)
    ensures BecomeLeader(n).log == n.log && OutFrom(BecomeLeader(n))
  {
    hide SendAppends, CommitUpTo, LogOk;
    var l := n.(role := Leader, leaderId := n.id, nextIndex := InitialNext(n.peers, LastIndex(n.log) + 1),
                matchIndex := InitialNext(n.peers, 0), sentIndex := map[], pendingReads := map[]);
    AppendsFrom(l, n.peers, 0);
  }

  lemma CandidateFrom(n: Node)
    requires LogOk(n.log) && OutFrom(n)
    ensures BecomeCandidate(n).log == n.log && OutFrom(BecomeCandidate(n))
    ensures BecomePreCandidate(n).log == n.log && OutFrom(BecomePreCandidate(n))
  {
    hide Broadcast, BecomeLeader, OutFrom, LogOk;
    var c := n.(currentTerm := n.currentTerm + 1, role := Candidate, votedFor := n.id, leaderId := 0, votesReceived := {n.id});
    var p := n.(role := PreCandidate, leaderId := 0, preVotesReceived := {n.id});
    var q := p.(currentTerm := p.currentTerm + 1, role := Candidate, votedFor := p.id, leaderId := 0, votesReceived := {p.id});
    SameOut(n, c);
    SameOut(n, p);
    SameOut(n, q);
    LeaderFrom(c);
    LeaderFrom(q);
    BroadcastFrom(c, n.peers, RequestVote(LastIndex(n.log), LastTermOf(n.log)));
    BroadcastFrom(p, n.peers, PreVote(LastIndex(n.log), LastTermOf(n.log)));
  }

  lemma SameOut(n: Node, r: Node)
    requires LogOk(n.log) && OutFrom(n) && r.log == n.log && r.snapshot == n.snapshot && r.msgs == n.msgs
    ensures OutFrom(r)
  {
  }

  // -------------------------------------------------------------------- what handlers send

  lemma AppendResponseFrom(n: Node, m: Message)
    requires LogOk(n.log) && OutFrom(n) && m.body.AppendEntriesResponse?
    ensures AfterAppendResponse(n, m).log == n.log && OutFrom(AfterAppendResponse(n, m))
  {
    hide OutFrom, AckRead, SendAppend, CommitUpTo, LogOk;
    var r := AfterAppendResponse(n, m);
    if m.term > n.currentTerm {
      SameOut(n, r);
    } else if m.term == n.currentTerm && n.role == Leader {
      AckReadFields(n, m.body.readCtx, m.from);
      var a := if m.body.readCtx != 0 then AckRead(n, m.body.readCtx, m.from) else n;
      SameOut(n, a);
      if m.body.success {
        SameOut(a, r);
      } else {
        var b := a.(nextIndex := if At(a.nextIndex, m.from) > 1 then a.nextIndex[m.from := At(a.nextIndex, m.from) - 1] else a.nextIndex,
                    sentIndex := a.sentIndex[m.from := 0]);
        SameOut(a, b);
        AppendFrom(b, m.from, 0);
      }
    }
  }

  lemma InstallResponseFrom(n: Node, m: Message)
    requires LogOk(n.log) && OutFrom(n) && m.body.InstallSnapshotResponse?
    ensures AfterInstallResponse(n, m).log == n.log && OutFrom(AfterInstallResponse(n, m))
  {
    hide OutFrom, CommitUpTo, LogOk;
    SameOut(n, AfterInstallResponse(n, m));
  }

  lemma VoteResponsesFrom(n: Node, m: Message)
    requires LogOk(n.log) && OutFrom(n)
    ensures m.body.PreVoteResponse? ==> AfterPreVoteResponse(n, m).log == n.log && OutFrom(AfterPreVoteResponse(n, m))
    ensures m.body.RequestVoteResponse? ==> AfterRequestVoteResponse(n, m).log == n.log && OutFrom(AfterRequestVoteResponse(n, m))
  {
    hide OutFrom, BecomeLeader, BecomeCandidate, LogOk, HasMajority;
    var p, c := n.(preVotesReceived := n.preVotesReceived + {m.from}), n.(votesReceived := n.votesReceived + {m.from});
    SameOut(n, p);
    SameOut(n, c);
    SameOut(n, BecomeFollower(n, m.term));
    CandidateFrom(p);
    LeaderFrom(c);
  }

  lemma AnswerFrom(n: Node, f: Node, to: Id, body: Body)
    requires LogOk(n.log) && n.msgs == [] && f.msgs == [] && LogOk(f.log) && !body.AppendEntries? && !body.InstallSnapshot?
    ensures OutFrom(Send(f, to, body))
  {
  }

  lemma VotesFrom(n: Node, m: Message)
    requires LogOk(n.log) && n.msgs == []
    ensures m.body.PreVote? ==> AfterPreVote(n, m).log == n.log && OutFrom(AfterPreVote(n, m))
    ensures m.body.RequestVote? ==> AfterRequestVote(n, m).log == n.log && OutFrom(AfterRequestVote(n, m))
  {
    hide LogUpToDate, LogOk;
  }

  lemma ReadFrom(n: Node, ctx: nat)
    requires LogOk(n.log) && OutFrom(n)
    ensures AfterReadRequest(n, ctx).log == n.log && OutFrom(AfterReadRequest(n, ctx))
    ensures AfterHeartbeat(n).log == n.log && OutFrom(AfterHeartbeat(n))
  {
    hide SendAppends, OutFrom, LogOk;
    var p := n.(pendingReads := n.pendingReads[ctx := PendingRead(n.commitIndex, {n.id})]);
    SameOut(n, p);
    AppendsFrom(n, n.peers, 0);
    AppendsFrom(p, n.peers, ctx);
    if n.role == Leader && HasMajority(n, 1) { SameOut(n, AfterReadRequest(n, ctx)); }
  }

  lemma ProposeFrom(n: Node, datas: seq<Bytes>)
    requires LogOk(n.log) && n.msgs == []
    ensures LogOk(AfterPropose(n, datas).log) && OutFrom(AfterPropose(n, datas))
    ensures AfterPropose(n, datas).log
         == if n.role == Leader then n.log + NewEntries(n.currentTerm, LastIndex(n.log) + 1, datas) else n.log
  {
    hide SendAppends, CommitUpTo;
    if n.role == Leader {
      var p := n.(log := n.log + NewEntries(n.currentTerm, LastIndex(n.log) + 1, datas));
      AppendsFrom(p, n.peers, 0);
    }
  }

  // -------------------------------------------------------------- what handlers do to logs

  /** Where the links of the node after an action come from. */
  ghost predicate LinkFrom(n: Node, a: Action, l: Link)
    requires LogOk(n.log)
  {
    || Linked(n.log, l)
    || (a.Deliver? && Carries(a.m, l))
    || (a.Propose? && n.role == Leader && l.e.term == n.currentTerm && l.e.index > LastIndex(n.log))
  }

  /** The sentinel stays, or is the boundary of an installed snapshot. */
  predicate SentinelFrom(n: Node, r: Node, a: Action)
    requires LogOk(n.log) && LogOk(r.log)
  {
    || r.log[0] == n.log[0]
    || (a.Deliver? && a.m.body.InstallSnapshot? && r.log[0] == Entry(a.m.body.snap.lastTerm, a.m.body.snap.lastIndex, []))
  }

  /** What an action does to the log: a leader that still leads has only added to it. */
  ghost predicate LinkStep(n: Node, r: Node, a: Action) {
    && LogOk(n.log) && LogOk(r.log) && OutFrom(r) && SentinelFrom(n, r, a)
    && (forall l :: Linked(r.log, l) ==> LinkFrom(n, a, l))
    && (n.role == Leader && r.role == Leader ==> n.log <= r.log)
  }

  lemma SameLinks(n: Node, r: Node, a: Action)
    requires LogOk(n.log) && r.log == n.log && OutFrom(r)
    ensures LinkStep(n, r, a)
  {
    hide Linked, OutFrom;
  }

  /** Where the merged part begins, its first link is the message's. */
  lemma MergeLinks(log: seq<Entry>, unstable: nat, m: Message, l: Link)
    requires LogOk(log) && m.body.AppendEntries? && EntriesOk(m.body.prevIndex, m.body.entries) && m.body.prevIndex <= LastIndex(log)
    requires TermIn(log, m.body.prevIndex) == m.body.prevTerm
    requires Merge(log, unstable, m.body.prevIndex, m.body.entries).Some?
    requires Linked(Merge(log, unstable, m.body.prevIndex, m.body.entries).value.0, l)
    ensures Linked(log, l) || Carries(m, l)
  {
    hide AgreeLen;
    var prev, es := m.body.prevIndex, m.body.entries;
    var k := AgreeLen(log, prev + 1, es);
    if k < |es| {
      var g := Merge(log, unstable, prev, es).value.0;
      var p := prev + 1 + k - Base(log);
      if k > 0 { assert HasTerm(log, prev + 1 + (k - 1), es[k - 1].term); }
      assert g == log[..p] + es[k..];
      var j :| 0 < j < |g| && LinkAt(g, j) == l;
      if j < p {
        assert LinkAt(log, j) == l;
      } else {
        JoinLink(log, m, k, p, j);
      }
    }
  }

  lemma MergeSentinel(log: seq<Entry>, unstable: nat, prev: nat, es: seq<Entry>)
    requires LogOk(log) && EntriesOk(prev, es) && prev <= LastIndex(log)
    ensures var r := Merge(log, unstable, prev, es); r.Some? ==> r.value.0 != [] && r.value.0[0] == log[0]
  {
    hide AgreeLen;
  }

  lemma JoinLink(log: seq<Entry>, m: Message, k: nat, p: nat, j: nat)
    requires m.body.AppendEntries? && k < |m.body.entries| && 0 < p <= |log| && p <= j < p + |m.body.entries| - k
    requires log[p - 1].term == SentLink(m, k).prev
    ensures Carries(m, LinkAt(log[..p] + m.body.entries[k..], j))
  {
    assert SentLink(m, k + j - p) == LinkAt(log[..p] + m.body.entries[k..], j);
  }

  lemma AppendLinks(n: Node, a: Action)
    requires LogOk(n.log) && n.msgs == [] && a.Deliver? && a.m.to == n.id
    requires a.m.body.AppendEntries? && EntriesOk(a.m.body.prevIndex, a.m.body.entries) && AfterAppend(n, a.m).Some?
    ensures LinkStep(n, AfterAppend(n, a.m).value, a)
  {
    hide AfterAppend, Merge, TermIn, Linked, Carries, LogOk;
    var m := a.m;
    var r := AfterAppend(n, m).value;
    if m.term < n.currentTerm {
      StaleAnswer(n, m);
      AnswerFrom(n, n, m.from, AppendEntriesResponse(false, 0, 0));
      SameLinks(n, r, a);
    } else {
      AppendAnswer(n, m);
      var f := BecomeFollower(n, m.term).(leaderId := m.from);
      if Accepts(n, m) {
        var body := AppendEntriesResponse(true, m.body.prevIndex + |m.body.entries|, m.body.readCtx);
        AnswerFrom(n, MergedNode(f, m), m.from, body);
        MergeSentinel(n.log, f.unstableIndex, m.body.prevIndex, m.body.entries);
        forall l | Linked(r.log, l)
          ensures LinkFrom(n, a, l)
        {
          MergeLinks(n.log, f.unstableIndex, m, l);
        }
      } else {
        AnswerFrom(n, f, m.from, AppendEntriesResponse(false, 0, m.body.readCtx));
        SameLinks(n, r, a);
      }
    }
  }

  lemma InstallLinks(n: Node, a: Action)
    requires LogOk(n.log) && n.msgs == [] && a.Deliver? && a.m.body.InstallSnapshot?
    ensures LinkStep(n, AfterInstall(n, a.m), a)
  {
    hide AfterInstall, Carries;
    InstallAnswer(n, a.m);
  }

  lemma ProposeLinks(n: Node, a: Action)
    requires LogOk(n.log) && n.msgs == [] && a.Propose?
    ensures LinkStep(n, AfterPropose(n, a.datas), a)
  {
    hide AfterPropose, OutFrom;
    ProposeFrom(n, a.datas);
    var r := AfterPropose(n, a.datas);
    forall l | Linked(r.log, l)
      ensures LinkFrom(n, a, l)
    {
      var j :| 0 < j < |r.log| && LinkAt(r.log, j) == l;
      if j < |n.log| { assert LinkAt(n.log, j) == l; }
    }
  }

  lemma StepLinks(n: Node, a: Action)
    requires LogOk(n.log) && n.msgs == [] && a.Deliver? && a.m.to == n.id
    requires a.m.body.AppendEntries? ==> EntriesOk(a.m.body.prevIndex, a.m.body.entries)
    requires AfterStep(n, a.m).Some?
    ensures LinkStep(n, AfterStep(n, a.m).value, a)
  {
    hide LinkStep, OutFrom, LogOk, AfterAppend, AfterInstall, AfterAppendResponse, AfterPreVote, AfterPreVoteResponse, AfterRequestVote,
         AfterRequestVoteResponse, AfterInstallResponse;
    NothingOut(n);
    match a.m.body
    case AppendEntries(_, _, _, _, _) => AppendLinks(n, a);
    case InstallSnapshot(_) => InstallLinks(n, a);
    case AppendEntriesResponse(_, _, _) => AppendResponseFrom(n, a.m); SameLinks(n, AfterAppendResponse(n, a.m), a);
    case InstallSnapshotResponse(_) => InstallResponseFrom(n, a.m); SameLinks(n, AfterInstallResponse(n, a.m), a);
    case PreVote(_, _) => VotesFrom(n, a.m); SameLinks(n, AfterPreVote(n, a.m), a);
    case RequestVote(_, _) => VotesFrom(n, a.m); SameLinks(n, AfterRequestVote(n, a.m), a);
    case PreVoteResponse(_) => VoteResponsesFrom(n, a.m); SameLinks(n, AfterPreVoteResponse(n, a.m), a);
    case RequestVoteResponse(_) => VoteResponsesFrom(n, a.m); SameLinks(n, AfterRequestVoteResponse(n, a.m), a);
  }

  lemma NothingOut(n: Node)
    requires LogOk(n.log) && n.msgs == []
    ensures OutFrom(n)
  {
  }

  lemma HandledLinks(n: Node, a: Action, ctx: nat)
    requires LogOk(n.log) && n.msgs == [] && Persists(a)
    requires a.Deliver? ==> a.m.to == n.id && (a.m.body.AppendEntries? ==> EntriesOk(a.m.body.prevIndex, a.m.body.entries))
    requires Handled(n, a, ctx).Some?
    ensures LinkStep(n, Handled(n, a, ctx).value, a)
  {
    hide LinkStep, OutFrom, LogOk, AfterStep, BecomePreCandidate, AfterHeartbeat, AfterPropose, AfterReadRequest;
    NothingOut(n);
    match a
    case Timeout(_) => CandidateFrom(n); SameLinks(n, Handled(n, a, ctx).value, a);
    case Heartbeat(_) => ReadFrom(n, ctx); SameLinks(n, Handled(n, a, ctx).value, a);
    case Read(_) => ReadFrom(n, ctx); SameLinks(n, Handled(n, a, ctx).value, a);
    case Propose(_, datas) => ProposeLinks(n, a);
    case Deliver(_, m) => StepLinks(n, a);
  }
}

/** Links over a cluster and over a run. */
module RaftLinks {
  import opened Bytes
  import opened RaftTypes
  import opened RaftNode
  import opened RaftCluster
  import opened RaftSteps
  import opened RaftRuns
  import opened RaftStable
  import opened RaftPolls
  import opened RaftReads
  import opened RaftLinkSteps

  /** The link is in some log, in memory or on disk, or in some message. */
  ghost predicate Occurs(s: Cluster, l: Link) {
    || (exists v :: v in s.nodes && Linked(s.nodes[v].log, l))
    || (exists v :: v in s.disk && Linked(s.disk[v].log, l))
    || (exists m :: m in s.net && Carries(m, l))
  }

  function Running(a: Action): Action { if a.Crash? then a.during else a }

  /** A leader's proposal makes the link, whether or not the proposal gets through its Persist. */
  ghost predicate Made(s: Cluster, a: Action, l: Link) {
    && a.v in s.nodes && LogOk(s.nodes[a.v].log) && Running(a).Propose?
    && var n := s.nodes[a.v];
       && n.role == Leader && l.e.term == n.currentTerm && l.e.index > LastIndex(n.log)
       && Linked(AfterPropose(n, Running(a).datas).log, l)
  }

  // ----------------------------------------------------------------------- one step

  /** What a handler leaves in the log was around before, or is made by it. */
  lemma HandledOccurs(s: Cluster, a: Action, r: Node, l: Link)
    requires Possible(s, Running(a)) && Persists(Running(a)) && Running(a).v == a.v && HandledAt(s, Running(a)) == Some(r) && Polled(s)
    ensures LinkStep(s.nodes[a.v], r, Running(a))
    ensures Linked(r.log, l) ==> Occurs(s, l) || Made(s, a, l)
  {
    hide Polled, NodePolled, DiskPolled, MsgPolled, Polls, Handled, Linked, Carries, AfterPropose, Recoverable;
    PolledNode(s, a.v);
    PolledLog(s.core, s.nodes[a.v], a.v);
    var b := Running(a);
    HandledLinks(s.nodes[a.v], b, s.nextReadCtx[a.v]);
    if b.Propose? { HandledPropose(s.nodes[a.v], b, s.nextReadCtx[a.v]); }
  }

  lemma ReopenedOccurs(s: Cluster, v: Id, d: Durable, l: Link, t: Cluster)
    requires v in s.nodes && LogOk(d.log) && t == Reopened(s, v, d, t.core) && Occurs(t, l)
    ensures Occurs(s, l) || Linked(d.log, l)
  {
    hide Linked, Carries;
  }

  lemma CompactOccurs(s: Cluster, v: Id, index: nat, data: Bytes, l: Link)
    requires v in s.nodes && LogOk(s.nodes[v].log) && !CompactPanics(s.nodes[v], index)
    requires Occurs(s.(nodes := s.nodes[v := AfterCompact(s.nodes[v], index, data)]), l)
    ensures Occurs(s, l)
  {
    hide Linked, Carries, AfterCompact;
    var r := AfterCompact(s.nodes[v], index, data);
    if Linked(r.log, l) { CompactLinks(s.nodes[v], index, data, l); }
  }

  lemma CompactLinks(n: Node, index: nat, data: Bytes, l: Link)
    requires LogOk(n.log) && !CompactPanics(n, index) && Linked(AfterCompact(n, index, data).log, l)
    ensures Linked(n.log, l)
  {
    var r := AfterCompact(n, index, data);
    if r != n {
      var j :| 0 < j < |r.log| && LinkAt(r.log, j) == l;
      assert LinkAt(n.log, index - Base(n.log) + j) == l;
    }
  }

  lemma DoneOccurs(s: Cluster, a: Action, r: Node, l: Link)
    requires Formed(s) && a.v in s.nodes && LogOk(r.log) && OutFrom(r) && Occurs(Done(s, a, r), l)
    ensures Occurs(s, l) || Linked(r.log, l)
  {
    hide Linked, Carries, History, OutFrom;
    if m :| m in r.msgs && Carries(m, l) {
      SentLinked(r, m, l);
    }
  }

  lemma SentLinked(r: Node, m: Message, l: Link)
    requires LogOk(r.log) && OutFrom(r) && m in r.msgs && Carries(m, l)
    ensures Linked(r.log, l)
  {
    hide Linked, Carries;
    CarriesLinked(r.log, m, l);
  }

  lemma PrefixLinked(log: seq<Entry>, g: seq<Entry>, l: Link)
    requires log <= g && Linked(log, l)
    ensures Linked(g, l)
  {
    var j :| 0 < j < |log| && LinkAt(log, j) == l;
    assert LinkAt(g, j) == l;
  }

  /** What a crash leaves is a cut of the new log, or the old one. */
  lemma LeftLinked(s: Cluster, a: Action, r: Node, l: Link)
    requires Possible(s, a) && a.Crash? && Possible(s, a.during) && HandledAt(s, a.during) == Some(r) && Linked(a.left.log, l) && Polled(s)
    ensures Linked(s.disk[a.v].log, l) || Linked(r.log, l)
  {
    hide Polled, NodePolled, DiskPolled, MsgPolled, Polls, Handled, Linked, Recoverable, Tracked, Synced;
    PolledNode(s, a.v);
    if a.left != s.disk[a.v] && a.left != DurableOf(r) {
      DiskSound(s.nodes[a.v], s.disk[a.v]);
      PolledLog(s.core, s.nodes[a.v], a.v);
      DiskTracks(s.nodes[a.v], s.disk[a.v], a.during, s.nextReadCtx[a.v]);
      TornLeaves(s.nodes[a.v], s.disk[a.v], r, a.left);
      if a.left.log <= r.log { PrefixLinked(a.left.log, r.log, l); }
    }
  }

  /** Links are only ever copied, but for a leader's proposals. */
  lemma StepOccurs(s: Cluster, a: Action, l: Link)
    requires Polled(s) && Possible(s, a) && Occurs(After(s, a), l)
    ensures Occurs(s, l) || Made(s, a, l)
  {
    hide Polled, NodePolled, DiskPolled, MsgPolled, Polls, Handled, Linked, Carries, Made, LinkStep, History, HistCrash, Recoverable;
    match a
    case Restart(v) => ReopenedOccurs(s, v, s.disk[v], l, After(s, a));
    case Compact(v, index, data) =>
      if CompactPanics(s.nodes[v], index) { ReopenedOccurs(s, v, s.disk[v], l, After(s, a)); } else { CompactOccurs(s, v, index, data, l); }
    case Crash(v, during, left) =>
      assert Possible(s, during);
      ReopenedOccurs(s, v, left, l, After(s, a));
      HandledOccurs(s, a, HandledAt(s, during).value, l);
      if Linked(left.log, l) { LeftLinked(s, a, HandledAt(s, during).value, l); }
    case _ =>
      HandledLogOk(s.nodes[a.v], a, s.nextReadCtx[a.v]);
      if HandledAt(s, a).None? {
        ReopenedOccurs(s, a.v, s.disk[a.v], l, After(s, a));
      } else {
        HandledOccurs(s, a, HandledAt(s, a).value, l);
        LinkStepOut(s.nodes[a.v], HandledAt(s, a).value, a);
        DoneOccurs(s, a, HandledAt(s, a).value, l);
      }
  }

  lemma LinkStepOut(n: Node, r: Node, a: Action)
    requires LinkStep(n, r, a)
    ensures LogOk(n.log) && LogOk(r.log) && OutFrom(r) && (n.role == Leader && r.role == Leader ==> n.log <= r.log)
  {
    hide OutFrom, LogOk;
  }

  // --------------------------------------------------------------------- known links

  /** The link's term has had its leader, and as long as that leader leads, its log reaches the link. */
  ghost predicate Known(s: Cluster, l: Link) {
    && l.e.term in s.core.lead
    && forall v :: LeadsAt(s, v, l.e.term) ==> LogOk(s.nodes[v].log) && l.e.index <= LastIndex(s.nodes[v].log)
  }

  predicate Reaches(log: seq<Entry>, g: seq<Entry>) { LogOk(log) && LogOk(g) && LastIndex(log) <= LastIndex(g) }

  /** A leadership that goes on through a step keeps its log and may add to it. */
  lemma ReignReach(s: Cluster, a: Action, t: Cluster, v: Id, term: nat)
    requires Possible(s, a) && t == After(s, a) && LeadsAt(t, v, term) && term in s.core.lead && ReadsOk(s) && Polled(s)
    ensures LeadsAt(s, v, term) && Reaches(s.nodes[v].log, t.nodes[v].log)
  {
    hide Polled, NodePolled, DiskPolled, MsgPolled, Polls, Moves, Handled, ReadsOk, Done, After, Handles, LinkStep, Grows;
    PolledStep(s, a);
    MovesIds(s.core, t.core, a.v);
    StepShape(s, a);
    SameNodes(s, t);
    PolledNode(s, v);
    PolledLog(s.core, s.nodes[v], v);
    if Persists(a) && HandledAt(s, a).Some? {
      DoneHandles(s, a);
      HandlesReign(s, a, HandledAt(s, a).value, t, v, term);
      HandledOccurs(s, a, HandledAt(s, a).value, Link(0, Entry(0, 0, [])));
      LinkStepOut(s.nodes[a.v], HandledAt(s, a).value, a);
      DoneReach(s, a, HandledAt(s, a).value, v);
    } else {
      SilentReach(s, a, v, term);
    }
  }

  lemma SameNodes(s: Cluster, t: Cluster)
    requires Polled(s) && Polled(t) && Grows(s.core, t.core)
    ensures t.nodes.Keys == s.nodes.Keys
  {
    hide NodePolled, DiskPolled, MsgPolled, Polls;
  }

  lemma DoneReach(s: Cluster, a: Action, r: Node, v: Id)
    requires Formed(s) && a.v in s.nodes && v in s.nodes && LogOk(r.log)
    requires s.nodes[a.v].role == Leader && r.role == Leader ==> s.nodes[a.v].log <= r.log
    requires s.nodes[v].role == Leader && Done(s, a, r).nodes[v].role == Leader
    ensures Reaches(s.nodes[v].log, Done(s, a, r).nodes[v].log)
  {
    hide History;
  }

  lemma SilentReach(s: Cluster, a: Action, v: Id, term: nat)
    requires Possible(s, a) && !(Persists(a) && HandledAt(s, a).Some?) && LeadsAt(After(s, a), v, term) && v in s.nodes
    ensures LeadsAt(s, v, term) && Reaches(s.nodes[v].log, After(s, a).nodes[v].log)
  {
    hide Handled, HistCrash, Recoverable;
  }

  lemma KnownKept(s: Cluster, a: Action, l: Link)
    requires Polled(s) && ReadsOk(s) && Possible(s, a) && Known(s, l)
    ensures Known(After(s, a), l)
  {
    hide Polled, Moves, ReadsOk, After, Possible;
    PolledStep(s, a);
    MovesIds(s.core, After(s, a).core, a.v);
    LedKept(s, After(s, a), l.e.term);
    forall v | LeadsAt(After(s, a), v, l.e.term)
      ensures LogOk(After(s, a).nodes[v].log) && l.e.index <= LastIndex(After(s, a).nodes[v].log)
    {
      ReignReach(s, a, After(s, a), v, l.e.term);
    }
  }

  lemma MadeKnown(s: Cluster, a: Action, l: Link)
    requires Polled(s) && Possible(s, a) && Made(s, a, l)
    ensures Known(After(s, a), l)
  {
    hide Polled, Moves, After, Possible, AfterPropose, Polls, NodePolled, DiskPolled, MsgPolled;
    var t := After(s, a);
    PolledStep(s, a);
    MovesIds(s.core, t.core, a.v);
    LeaderPolledAt(s, a.v);
    LedKept(s, t, l.e.term);
    forall v | LeadsAt(t, v, l.e.term)
      ensures LogOk(t.nodes[v].log) && l.e.index <= LastIndex(t.nodes[v].log)
    {
      LeaderPolledAt(t, v);
      MadeReach(s, a, l);
    }
  }

  lemma LinkedWithin(log: seq<Entry>, l: Link)
    requires LogOk(log) && Linked(log, l)
    ensures l.e.index <= LastIndex(log)
  {
  }

  lemma MadeReach(s: Cluster, a: Action, l: Link)
    requires Possible(s, a) && Made(s, a, l) && a.v in After(s, a).nodes && After(s, a).nodes[a.v].role == Leader
    ensures LogOk(After(s, a).nodes[a.v].log) && l.e.index <= LastIndex(After(s, a).nodes[a.v].log)
  {
    hide HistCrash, Recoverable, AfterPropose, Linked;
    ProposedLog(s.nodes[a.v], Running(a).datas);
    LinkedWithin(AfterPropose(s.nodes[a.v], Running(a).datas).log, l);
  }

  // ------------------------------------------------------------------------ over a run

  ghost predicate Ever(states: seq<Cluster>, i: nat, l: Link)
    requires i < |states|
  {
    exists k: nat :: k <= i && Occurs(states[k], l)
  }

  lemma EverBefore(states: seq<Cluster>, actions: seq<Action>, i: nat, l: Link)
    requires PossibleRun(states, actions) && 0 < i < |states| && Ever(states, i, l)
    ensures Ever(states, i - 1, l) || Made(states[i - 1], actions[i - 1], l)
  {
    hide PossibleRun, Polled, Possible, After, Occurs, Made;
    PossibleStart(states, actions);
    var k: nat :| k <= i && Occurs(states[k], l);
    if k == i {
      PossibleStep(states, actions, i - 1);
      RunPolled(states, actions, i - 1);
      StepOccurs(states[i - 1], actions[i - 1], l);
    }
  }

  lemma NothingAtFirst(s: Cluster, l: Link)
    requires Initial(s)
    ensures !Occurs(s, l)
  {
    hide Wired, Unwritten;
  }

  lemma {:induction false} RunKnown(states: seq<Cluster>, actions: seq<Action>, i: nat, l: Link)
    requires PossibleRun(states, actions) && i < |states| && Ever(states, i, l)
    ensures Known(states[i], l)
  {
    hide PossibleRun, Polled, ReadsOk, Possible, After, Occurs, Made, Known;
    PossibleStart(states, actions);
    if i == 0 {
      NothingAtFirst(states[0], l);
    } else {
      PossibleStep(states, actions, i - 1);
      RunReads(states, actions, i - 1);
      EverBefore(states, actions, i, l);
      if Ever(states, i - 1, l) {
        RunKnown(states, actions, i - 1, l);
        KnownKept(states[i - 1], actions[i - 1], l);
      } else {
        MadeKnown(states[i - 1], actions[i - 1], l);
      }
    }
  }

  /** A proposal's links are new: none of the leader's term has been seen at their indices. */
  lemma MadeNew(s: Cluster, a: Action, l: Link, k: Link)
    requires Made(s, a, l) && Known(s, k) && k.e.term == l.e.term
    ensures k.e.index < l.e.index
  {
    hide Linked;
    assert LeadsAt(s, a.v, l.e.term);
  }

  lemma MadeOnce(s: Cluster, a: Action, l: Link, k: Link)
    requires Made(s, a, l) && Made(s, a, k) && k.e.index == l.e.index
    ensures k == l
  {
    hide AfterPropose;
    var n := s.nodes[a.v];
    ProposedLog(n, Running(a).datas);
    LinkedOnce(AfterPropose(n, Running(a).datas).log, l, k);
  }

  lemma ProposedLog(n: Node, datas: seq<Bytes>)
    requires LogOk(n.log)
    ensures LogOk(AfterPropose(n, datas).log)
  {
    hide CommitUpTo, SendAppend;
  }

  lemma LinkedOnce(log: seq<Entry>, l: Link, k: Link)
    requires LogOk(log) && Linked(log, l) && Linked(log, k) && k.e.index == l.e.index
    ensures k == l
  {
    var i :| 0 < i < |log| && LinkAt(log, i) == l;
    var j :| 0 < j < |log| && LinkAt(log, j) == k;
    assert i == j;
  }

  /** An index and a term have one link, ever: one entry, after one term. */
  lemma {:induction false} OneLink(states: seq<Cluster>, actions: seq<Action>, i: nat, l: Link, k: Link)
    requires PossibleRun(states, actions) && i < |states| && Ever(states, i, l) && Ever(states, i, k)
    requires l.e.index == k.e.index && l.e.term == k.e.term
    ensures l == k
  {
    hide PossibleRun, Occurs, Made, Known, Possible, After, Ever;
    PossibleStart(states, actions);
    if i == 0 {
      EverAtFirst(states, l);
      NothingAtFirst(states[0], l);
    } else {
      EverBefore(states, actions, i, l);
      EverBefore(states, actions, i, k);
      var s, a := states[i - 1], actions[i - 1];
      if Ever(states, i - 1, l) { RunKnown(states, actions, i - 1, l); }
      if Ever(states, i - 1, k) { RunKnown(states, actions, i - 1, k); }
      if Ever(states, i - 1, l) && Ever(states, i - 1, k) {
        OneLink(states, actions, i - 1, l, k);
      } else if Made(s, a, l) && Made(s, a, k) {
        MadeOnce(s, a, l, k);
      } else if Made(s, a, l) {
        MadeNew(s, a, l, k);
      } else {
        MadeNew(s, a, k, l);
      }
    }
  }

  lemma EverAtFirst(states: seq<Cluster>, l: Link)
    requires |states| > 0 && Ever(states, 0, l)
    ensures Occurs(states[0], l)
  {
    hide Occurs;
  }

  lemma HeldLink(states: seq<Cluster>, i: nat, j: nat, v: Id, k: nat)
    requires i <= j < |states| && v in states[i].nodes && Holds(states[i].nodes[v], k)
    ensures var log := states[i].nodes[v].log; Ever(states, j, LinkAt(log, k - Base(log)))
  {
    var log := states[i].nodes[v].log;
    assert Linked(log, LinkAt(log, k - Base(log)));
    assert Occurs(states[i], LinkAt(log, k - Base(log)));
  }

  /**
   * Log matching: two logs, at whatever points of any possible run, with entries of one term
   * at an index agree on every entry up to it that both still hold.
   */
  lemma {:induction false} LogsMatch(states: seq<Cluster>, actions: seq<Action>, i: nat, j: nat, v: Id, w: Id, k: nat, h: nat)
    requires PossibleRun(states, actions) && i < |states| && j < |states| && v in states[i].nodes && w in states[j].nodes
    requires Holds(states[i].nodes[v], k) && Holds(states[j].nodes[w], k)
    requires EntryAt(states[i].nodes[v], k).term == EntryAt(states[j].nodes[w], k).term
    requires h <= k && Holds(states[i].nodes[v], h) && Holds(states[j].nodes[w], h)
    ensures EntryAt(states[i].nodes[v], h) == EntryAt(states[j].nodes[w], h)
    decreases k
  {
    hide PossibleRun, Ever;
    var n, r := states[i].nodes[v], states[j].nodes[w];
    var last := if i < j then j else i;
    HeldLink(states, i, last, v, k);
    HeldLink(states, j, last, w, k);
    OneLink(states, actions, last, LinkAt(n.log, k - Base(n.log)), LinkAt(r.log, k - Base(r.log)));
    if h < k { LogsMatch(states, actions, i, j, v, w, k - 1, h); }
  }
}
