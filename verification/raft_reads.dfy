/** What every handler does to reads: the contexts it sends, echoes, counts and surfaces. */
module RaftReadSteps {
  import opened Bytes
  import opened RaftTypes
  import opened RaftNode
  import opened RaftSteps

  /** A leader sends a context only when it requests a read; everything else carries 0. */
  predicate ContextSent(n: Node, a: Action, ctx: nat, m: Message) {
    m.body.AppendEntries? ==>
      m.body.readCtx == 0 || (a.Read? && m.body.readCtx == ctx && n.role == Leader && m.term == n.currentTerm)
  }

  /** A context is echoed to the node it came from, in the term it came in, by a node not past that term. */
  predicate ContextEchoed(n: Node, a: Action, m: Message) {
    m.body.AppendEntriesResponse? && m.body.readCtx != 0 ==>
      && a.Deliver? && a.m.body.AppendEntries? && a.m.body.readCtx == m.body.readCtx
      && m.to == a.m.from && m.term == a.m.term && n.currentTerm <= m.term && m.from == n.id
  }

  /** A delivered confirmation of a pending read of the node's own term. */
  predicate Confirms(n: Node, a: Action, ctx: nat) {
    && a.Deliver? && a.m.body.AppendEntriesResponse? && a.m.body.readCtx == ctx && ctx != 0
    && a.m.term == n.currentTerm && a.m.to == n.id && n.role == Leader && ctx in n.pendingReads
  }

  /** Where a pending read of a leader comes from. */
  predicate PendingFrom(n: Node, r: Node, a: Action, ctx: nat, k: nat)
    requires k in r.pendingReads
  {
    var pr := r.pendingReads[k];
    || (n.role == Leader && k in n.pendingReads && pr == n.pendingReads[k])
    || (n.role == Leader && a.Read? && k == ctx && pr == PendingRead(n.commitIndex, {n.id}))
    || (Confirms(n, a, k) && pr == PendingRead(n.pendingReads[k].index, n.pendingReads[k].acked + {a.m.from}))
  }

  /** Where a surfaced read comes from. */
  predicate SurfacedFrom(n: Node, a: Action, ctx: nat, rs: ReadState) {
    || (a.Read? && n.role == Leader && rs == ReadState(n.commitIndex, ctx) && HasMajority(n, 1))
    || (Confirms(n, a, rs.ctx) && rs.index == n.pendingReads[rs.ctx].index
        && HasMajority(n, |n.pendingReads[rs.ctx].acked + {a.m.from}|))
  }

  ghost predicate ReadStep(n: Node, r: Node, a: Action, ctx: nat) {
    && (forall m :: m in r.msgs ==> ContextSent(n, a, ctx, m) && ContextEchoed(n, a, m))
    && (r.role == Leader ==> forall k :: k in r.pendingReads ==> PendingFrom(n, r, a, ctx, k))
    && (forall rs :: rs in r.readStates ==> SurfacedFrom(n, a, ctx, rs))
    && (r.role == Leader && n.role != Leader ==> r.currentTerm > n.currentTerm || (n.role == Candidate && r.currentTerm == n.currentTerm))
    && (r.role == Leader && n.role == Leader ==> r.currentTerm == n.currentTerm)
  }

  // ----------------------------------------------------------------- outboxes

  /** The messages of r are n's and others that say nothing about reads but the context ctx. */
  predicate Quiet(n: Node, m: Message, ctx: nat) {
    && !m.body.AppendEntriesResponse?
    && (m.body.AppendEntries? ==> m.body.readCtx == ctx && m.term == n.currentTerm)
  }

  lemma SendAppendsQuiet(n: Node, to: seq<Id>, ctx: nat)
    requires LogOk(n.log) && forall m :: m in n.msgs ==> Quiet(n, m, ctx)
    ensures forall m :: m in SendAppends(n, to, ctx).msgs ==> Quiet(n, m, ctx)
    decreases |to|
  {
    hide EntriesIn, TermIn, LogOk;
    if to != [] {
      SendAppendsQuiet(SendAppend(n, to[0], ctx), to[1..], ctx);
    }
  }

  lemma BroadcastQuiet(n: Node, to: seq<Id>, body: Body)
    requires !body.AppendEntries? && !body.AppendEntriesResponse? && forall m :: m in n.msgs ==> Quiet(n, m, 0)
    ensures forall m :: m in Broadcast(n, to, body).msgs ==> Quiet(n, m, 0)
    decreases |to|
  {
    if to != [] { BroadcastQuiet(Send(n, to[0], body), to[1..], body); }
  }

  /** A step that leaves reads alone or starts a leadership without any. */
  predicate Unread(n: Node, r: Node) {
    && (forall m :: m in r.msgs ==> Quiet(r, m, 0))
    && r.readStates == []
    && (r.pendingReads == n.pendingReads || r.pendingReads == map[])
    && (r.role == Leader && n.role != Leader ==> r.pendingReads == map[])
    && (r.role == Leader && n.role != Leader ==> r.currentTerm > n.currentTerm || (n.role == Candidate && r.currentTerm == n.currentTerm))
    && (r.role == Leader && n.role == Leader ==> r.currentTerm == n.currentTerm)
  }

  lemma UnreadStep(n: Node, r: Node, a: Action, ctx: nat)
    requires Unread(n, r)
    ensures ReadStep(n, r, a, ctx)
  {
  }

  lemma LeaderUnread(n: Node)
    requires LogOk(n.log) && n.msgs == [] && n.readStates == []
    ensures var r := BecomeLeader(n);
            && r.role == Leader && r.currentTerm == n.currentTerm && r.readStates == [] && r.pendingReads == map[]
            && forall m :: m in r.msgs ==> Quiet(r, m, 0)
  {
    hide SendAppends, CommitUpTo;
    var l := n.(role := Leader, leaderId := n.id,
                nextIndex := InitialNext(n.peers, LastIndex(n.log) + 1),
                matchIndex := InitialNext(n.peers, 0),
                sentIndex := map[], pendingReads := map[]);
    SendAppendsSame(l, n.peers, 0);
    SendAppendsQuiet(l, n.peers, 0);
  }

  lemma CandidateUnread(n: Node)
    requires LogOk(n.log) && n.msgs == [] && n.readStates == [] && n.role != Leader
    ensures Unread(n, BecomeCandidate(n))
  {
    hide Broadcast, BecomeLeader;
    var c := n.(currentTerm := n.currentTerm + 1, role := Candidate, votedFor := n.id, leaderId := 0, votesReceived := {n.id});
    LeaderUnread(c);
    var body := RequestVote(LastIndex(n.log), LastTermOf(n.log));
    BroadcastSame(c, n.peers, body);
    BroadcastQuiet(c, n.peers, body);
  }

  lemma PreCandidateUnread(n: Node)
    requires LogOk(n.log) && n.msgs == [] && n.readStates == [] && n.role != Leader
    ensures Unread(n, BecomePreCandidate(n))
  {
    hide Broadcast, BecomeCandidate;
    var c := n.(role := PreCandidate, leaderId := 0, preVotesReceived := {n.id});
    CandidateUnread(c);
    var body := PreVote(LastIndex(n.log), LastTermOf(n.log));
    BroadcastSame(c, n.peers, body);
    BroadcastQuiet(c, n.peers, body);
  }

  /** An answer that has nothing to do with reads. */
  lemma AnswerUnread(n: Node, f: Node, to: Id, body: Body)
    requires n.msgs == [] && n.readStates == [] && !body.AppendEntries? && !body.AppendEntriesResponse?
    requires f.msgs == [] && f.readStates == [] && f.pendingReads == n.pendingReads
    requires f.role == Leader ==> n.role == Leader && f.currentTerm == n.currentTerm
    ensures Unread(n, Send(f, to, body)) && Unread(n, f)
  {
  }

  lemma VoteRequestUnread(n: Node, m: Message)
    requires LogOk(n.log) && n.msgs == [] && n.readStates == []
    ensures m.body.PreVote? ==> Unread(n, AfterPreVote(n, m))
    ensures m.body.RequestVote? ==> Unread(n, AfterRequestVote(n, m))
  {
    hide LogUpToDate, LogOk, Unread, Send;
    forall g: bool
      ensures Unread(n, Send(n, m.from, PreVoteResponse(g)))
    {
      AnswerUnread(n, n, m.from, PreVoteResponse(g));
    }
    var f := if m.term > n.currentTerm then BecomeFollower(n, m.term) else n;
    AnswerUnread(n, f, m.from, RequestVoteResponse(false));
    AnswerUnread(n, f.(votedFor := m.from), m.from, RequestVoteResponse(true));
  }

  lemma VoteResponseUnread(n: Node, m: Message)
    requires LogOk(n.log) && n.msgs == [] && n.readStates == []
    ensures m.body.PreVoteResponse? ==> Unread(n, AfterPreVoteResponse(n, m))
    ensures m.body.RequestVoteResponse? ==> Unread(n, AfterRequestVoteResponse(n, m))
  {
    hide BecomeCandidate, BecomeLeader, HasMajority, LogOk;
    if n.role == PreCandidate { CandidateUnread(n.(preVotesReceived := n.preVotesReceived + {m.from})); }
    LeaderUnread(n.(votesReceived := n.votesReceived + {m.from}));
  }

  lemma InstallUnread(n: Node, m: Message)
    requires LogOk(n.log) && n.msgs == [] && n.readStates == []
    ensures m.body.InstallSnapshot? ==> Unread(n, AfterInstall(n, m))
    ensures m.body.InstallSnapshotResponse? ==> Unread(n, AfterInstallResponse(n, m))
  {
    hide CommitUpTo, AfterInstall, LogOk, Send;
    if m.body.InstallSnapshot? {
      InstallAnswer(n, m);
      var f := BecomeFollower(n, m.term).(leaderId := m.from);
      AnswerUnread(n, n, m.from, InstallSnapshotResponse(Base(n.log)));
      if m.term >= n.currentTerm {
        AnswerUnread(n, f, m.from, InstallSnapshotResponse(Base(n.log)));
        AnswerUnread(n, InstalledNode(f, m), m.from, InstallSnapshotResponse(m.body.snap.lastIndex));
      }
    }
  }

  lemma ProposeUnread(n: Node, datas: seq<Bytes>)
    requires LogOk(n.log) && n.msgs == [] && n.readStates == []
    ensures Unread(n, AfterPropose(n, datas)) && Unread(n, AfterHeartbeat(n))
  {
    hide SendAppends, CommitUpTo;
    var p := n.(log := n.log + NewEntries(n.currentTerm, LastIndex(n.log) + 1, datas));
    assert LogOk(p.log);
    SendAppendsSame(p, n.peers, 0);
    SendAppendsQuiet(p, n.peers, 0);
    SendAppendsSame(n, n.peers, 0);
    SendAppendsQuiet(n, n.peers, 0);
  }

  // --------------------------------------------------------------- read handlers

  lemma RequestReads(n: Node, a: Action, ctx: nat)
    requires LogOk(n.log) && n.msgs == [] && n.readStates == [] && a.Read?
    ensures ReadStep(n, AfterReadRequest(n, ctx), a, ctx)
  {
    hide SendAppends, HasMajority;
    var p := n.(pendingReads := n.pendingReads[ctx := PendingRead(n.commitIndex, {n.id})]);
    SendAppendsSame(p, n.peers, ctx);
    SendAppendsQuiet(p, n.peers, ctx);
  }

  lemma AppendReads(n: Node, a: Action, ctx: nat)
    requires LogOk(n.log) && n.msgs == [] && n.readStates == [] && a.Deliver? && a.m.body.AppendEntries?
    requires EntriesOk(a.m.body.prevIndex, a.m.body.entries) && AfterAppend(n, a.m).Some?
    ensures ReadStep(n, AfterAppend(n, a.m).value, a, ctx)
  {
    hide Merge, TermIn, AfterAppend, ReadStep, LogOk, Accepts;
    var m, r := a.m, AfterAppend(n, a.m).value;
    if m.term < n.currentTerm {
      StaleAnswer(n, m);
      RefusedReads(n, a, ctx);
    } else {
      AppendAnswer(n, m);
      EchoReads(n, r, a, ctx, if Accepts(n, m) then AppendEntriesResponse(true, m.body.prevIndex + |m.body.entries|, m.body.readCtx)
                              else AppendEntriesResponse(false, 0, m.body.readCtx));
    }
  }

  lemma RefusedReads(n: Node, a: Action, ctx: nat)
    requires n.msgs == [] && n.readStates == [] && a.Deliver?
    ensures ReadStep(n, Send(n, a.m.from, AppendEntriesResponse(false, 0, 0)), a, ctx)
  {
  }

  lemma EchoReads(n: Node, r: Node, a: Action, ctx: nat, body: Body)
    requires a.Deliver? && a.m.body.AppendEntries? && body.AppendEntriesResponse? && body.readCtx == a.m.body.readCtx
    requires r.role == Follower && r.readStates == [] && r.currentTerm == a.m.term >= n.currentTerm
    requires r.id == n.id && r.msgs == [Message(r.id, a.m.from, r.currentTerm, body)]
    ensures ReadStep(n, r, a, ctx)
  {
  }

  lemma AckReads(n: Node, a: Action, ctx: nat)
    requires LogOk(n.log) && n.msgs == [] && n.readStates == [] && a.Deliver? && a.m.body.AppendEntriesResponse?
    requires a.m.body.readCtx != 0 && n.role == Leader && a.m.term == n.currentTerm && a.m.to == n.id
    ensures var r := AckRead(n, a.m.body.readCtx, a.m.from);
            ReadStep(n, r, a, ctx) && r.msgs == [] && r.role == Leader && r.currentTerm == n.currentTerm
  {
    hide HasMajority;
  }

  /** Later changes to a leader's progress do not touch reads. */
  lemma ReadStepKept(n: Node, r: Node, q: Node, a: Action, ctx: nat)
    requires ReadStep(n, r, a, ctx) && q.pendingReads == r.pendingReads && q.readStates == r.readStates
    requires q.role == r.role && q.currentTerm == r.currentTerm && forall m :: m in q.msgs ==> Quiet(q, m, 0)
    ensures ReadStep(n, q, a, ctx)
  {
    forall k | q.role == Leader && k in q.pendingReads
      ensures PendingFrom(n, q, a, ctx, k)
    {
      assert PendingFrom(n, r, a, ctx, k);
    }
  }

  lemma ResponseReads(n: Node, a: Action, ctx: nat)
    requires LogOk(n.log) && n.msgs == [] && n.readStates == [] && a.Deliver? && a.m.body.AppendEntriesResponse? && a.m.to == n.id
    ensures ReadStep(n, AfterAppendResponse(n, a.m), a, ctx)
  {
    hide AckRead, AfterAppendResponse, ReadStep, Unread, LogOk;
    var m, q := a.m, AfterAppendResponse(n, a.m);
    if m.term != n.currentTerm || n.role != Leader || m.body.readCtx == 0 {
      ResponseUnread(n, m);
      UnreadStep(n, q, a, ctx);
    } else {
      AckReads(n, a, ctx);
      ResponseProgress(n, m);
      ReadStepKept(n, AckRead(n, m.body.readCtx, m.from), q, a, ctx);
    }
  }

  lemma ResponseUnread(n: Node, m: Message)
    requires LogOk(n.log) && n.msgs == [] && n.readStates == [] && m.body.AppendEntriesResponse?
    requires m.term != n.currentTerm || n.role != Leader || m.body.readCtx == 0
    ensures Unread(n, AfterAppendResponse(n, m))
  {
    hide AckRead, CommitUpTo, EntriesIn, TermIn;
  }

  lemma ResponseProgress(n: Node, m: Message)
    requires LogOk(n.log) && n.msgs == [] && m.body.AppendEntriesResponse? && m.term == n.currentTerm && n.role == Leader && m.body.readCtx != 0
    ensures var r, q := AckRead(n, m.body.readCtx, m.from), AfterAppendResponse(n, m);
            && q.pendingReads == r.pendingReads && q.readStates == r.readStates && q.role == r.role && q.currentTerm == r.currentTerm
            && forall o :: o in q.msgs ==> Quiet(q, o, 0)
  {
    hide AckRead, CommitUpTo, EntriesIn, TermIn;
    AckReadFields(n, m.body.readCtx, m.from);
  }

  lemma StepReads(n: Node, a: Action, ctx: nat)
    requires LogOk(n.log) && n.msgs == [] && n.readStates == [] && a.Deliver?
    requires a.m.body.AppendEntries? ==> EntriesOk(a.m.body.prevIndex, a.m.body.entries)
    ensures AfterStep(n, a.m).Some? ==> ReadStep(n, AfterStep(n, a.m).value, a, ctx)
  {
    hide AfterAppend, AfterInstall, AfterAppendResponse, AfterPreVote, AfterPreVoteResponse, AfterRequestVote,
         AfterRequestVoteResponse, AfterInstallResponse, LogOk, ReadStep, Unread;
    var m := a.m;
    if AfterStep(n, m).Some? {
      var r := AfterStep(n, m).value;
      if m.to != n.id {
        assert Unread(n, n) by { SelfUnread(n); }
        UnreadStep(n, r, a, ctx);
      } else {
        match m.body
        case AppendEntries(_, _, _, _, _) => AppendReads(n, a, ctx);
        case AppendEntriesResponse(_, _, _) => ResponseReads(n, a, ctx);
        case InstallSnapshot(_) => InstallUnread(n, m); UnreadStep(n, r, a, ctx);
        case InstallSnapshotResponse(_) => InstallUnread(n, m); UnreadStep(n, r, a, ctx);
        case _ => VoteRequestUnread(n, m); VoteResponseUnread(n, m); UnreadStep(n, r, a, ctx);
      }
    }
  }

  lemma SelfUnread(n: Node)
    requires n.msgs == [] && n.readStates == []
    ensures Unread(n, n)
  {
  }

  /** Every handler, as far as reads go. */
  lemma HandledReads(n: Node, a: Action, ctx: nat)
    requires LogOk(n.log) && n.msgs == [] && n.readStates == [] && Persists(a)
    requires a.Deliver? && a.m.body.AppendEntries? ==> EntriesOk(a.m.body.prevIndex, a.m.body.entries)
    ensures Handled(n, a, ctx).Some? ==> ReadStep(n, Handled(n, a, ctx).value, a, ctx)
  {
    hide AfterStep, BecomePreCandidate, AfterHeartbeat, AfterPropose, AfterReadRequest, LogOk, ReadStep, Unread;
    match a
    case Timeout(_) =>
      if n.role == Leader { SelfUnread(n); } else { PreCandidateUnread(n); }
      UnreadStep(n, Handled(n, a, ctx).value, a, ctx);
    case Heartbeat(_) => ProposeUnread(n, []); UnreadStep(n, AfterHeartbeat(n), a, ctx);
    case Propose(_, datas) => ProposeUnread(n, datas); UnreadStep(n, AfterPropose(n, datas), a, ctx);
    case Read(_) => RequestReads(n, a, ctx);
    case Deliver(_, m) => StepReads(n, a, ctx);
  }
}

/**
 * ReadIndex over whole runs.
 *
 * A read is requested at one step and surfaced at a later one.  In between, the
 * confirmations counted come from nodes that had not passed the leader's term
 * when the read was requested, so no later leader existed then.
 */
module RaftReads {
  import opened Bytes
  import opened RaftTypes
  import opened Quorums
  import opened RaftCore
  import opened RaftNode
  import opened RaftCluster
  import opened RaftSteps
  import opened RaftRuns
  import opened RaftStable
  import opened RaftPolls
  import opened RaftReadSteps

  // ------------------------------------------------------------ contexts are fresh

  predicate LeadsAt(s: Cluster, u: Id, t: nat) {
    u in s.nodes && s.nodes[u].role == Leader && s.nodes[u].currentTerm == t
  }

  /** A context out in the name of u's current leadership is one u has already given out. */
  predicate Given(s: Cluster, u: Id, t: nat, x: nat) {
    LeadsAt(s, u, t) ==> u in s.nextReadCtx && x < s.nextReadCtx[u]
  }

  ghost predicate MessageGiven(s: Cluster, m: Message) {
    && (m.body.AppendEntries? && m.body.readCtx != 0 ==> m.term in s.core.lead && Given(s, m.from, m.term, m.body.readCtx))
    && (m.body.AppendEntriesResponse? && m.body.readCtx != 0 ==> m.term in s.core.lead && Given(s, m.to, m.term, m.body.readCtx))
  }

  ghost predicate NodeGiven(n: Node, next: nat) {
    n.readStates == [] && next >= 1 && (n.role == Leader ==> forall k :: k in n.pendingReads ==> k < next)
  }

  ghost predicate ReadsOk(s: Cluster) {
    && (forall v :: v in s.nodes ==> v in s.nextReadCtx && NodeGiven(s.nodes[v], s.nextReadCtx[v]))
    && (forall m :: m in s.net ==> MessageGiven(s, m))
  }

  /** A leadership begins in a term the node has not led. */
  lemma NewLeaderTerm(s: Cluster, a: Action, r: Node)
    requires Polled(s) && a.v in s.nodes && r.role == Leader && s.nodes[a.v].role != Leader
    requires r.currentTerm > s.nodes[a.v].currentTerm || (s.nodes[a.v].role == Candidate && r.currentTerm == s.nodes[a.v].currentTerm)
    ensures !(r.currentTerm in s.core.lead && s.core.lead[r.currentTerm] == a.v)
  {
    hide Polled, DiskPolled, MsgPolled, Wired;
    PolledNode(s, a.v);
  }

  lemma LeadsInHistory(s: Cluster, u: Id, t: nat)
    requires Polled(s) && LeadsAt(s, u, t)
    ensures t in s.core.lead && s.core.lead[t] == u
  {
    hide Polled, NodePolled, DiskPolled, MsgPolled, Polls;
    LeaderPolledAt(s, u);
  }

  /** After a step, a term that had a leader before is still led by that very leadership or by none. */
  lemma SameReign(s: Cluster, a: Action, t: Cluster, u: Id, term: nat)
    requires Polled(s) && Polled(t) && Grows(s.core, t.core) && u in s.nodes && LeadsAt(t, u, term) && term in s.core.lead
    requires u != a.v ==> u in t.nodes && t.nodes[u] == s.nodes[u]
    requires u == a.v && s.nodes[u].role == Leader ==> t.nodes[u].currentTerm == s.nodes[u].currentTerm
    requires u == a.v && s.nodes[u].role != Leader ==>
      !(t.nodes[u].currentTerm in s.core.lead && s.core.lead[t.nodes[u].currentTerm] == u)
    ensures LeadsAt(s, u, term)
  {
    hide Polled, NodePolled, DiskPolled, MsgPolled, Polls;
    LeadsInHistory(t, u, term);
    LedKept(s, t, term);
  }

  lemma LedKept(s: Cluster, t: Cluster, term: nat)
    requires Grows(s.core, t.core) && term in s.core.lead
    ensures term in t.core.lead && t.core.lead[term] == s.core.lead[term]
  {
  }

  // ------------------------------------------------------------------ steps

  /** A step that sends nothing: the node compacts, or starts over as a follower. */
  predicate Silent(s: Cluster, t: Cluster, v: Id) {
    && v in s.nodes && v in t.nodes && v in s.nextReadCtx && t.net == s.net && t.nodes == s.nodes[v := t.nodes[v]]
    && var n, r := s.nodes[v], t.nodes[v];
       || (r.role == Follower && r.readStates == [] && t.nextReadCtx == s.nextReadCtx[v := 1])
       || (r == n.(log := r.log, unstableIndex := r.unstableIndex, snapshot := r.snapshot) && t.nextReadCtx == s.nextReadCtx
           && t.core == s.core)
  }

  lemma ReopenedSilent(s: Cluster, v: Id, d: Durable, c: Core)
    requires v in s.nodes && v in s.nextReadCtx && LogOk(d.log)
    ensures Silent(s, Reopened(s, v, d, c), v)
  {
  }

  lemma StepShape(s: Cluster, a: Action)
    requires Possible(s, a)
    ensures if Persists(a) && HandledAt(s, a).Some?
            then LogOk(HandledAt(s, a).value.log) && After(s, a) == Done(s, a, HandledAt(s, a).value)
            else Silent(s, After(s, a), a.v)
  {
    hide Handled, History, HistCrash, Reopened, Silent;
    assert a.v in s.nextReadCtx;
    match a
    case Restart(v) => ReopenedSilent(s, v, s.disk[v], s.core);
    case Crash(v, during, left) =>
      assert Possible(s, during);
      ReopenedSilent(s, v, left, HistCrash(s.core, s.nodes[v], HandledAt(s, during).value, during, s.disk[v], left));
    case Compact(v, index, data) =>
      if CompactPanics(s.nodes[v], index) { ReopenedSilent(s, v, s.disk[v], s.core); } else { CompactSilent(s, v, index, data); }
    case _ =>
      HandledLogOk(s.nodes[a.v], a, s.nextReadCtx[a.v]);
      if HandledAt(s, a).None? { ReopenedSilent(s, a.v, s.disk[a.v], s.core); }
  }

  lemma CompactSilent(s: Cluster, v: Id, index: nat, data: Bytes)
    requires v in s.nodes && v in s.nextReadCtx && LogOk(s.nodes[v].log) && !CompactPanics(s.nodes[v], index)
    ensures Silent(s, s.(nodes := s.nodes[v := AfterCompact(s.nodes[v], index, data)]), v)
  {
  }

  /** What a step that runs a handler does, as far as reads go. */
  ghost predicate Handles(s: Cluster, a: Action, r: Node, t: Cluster) {
    && a.v in s.nodes && a.v in s.nextReadCtx && s.nextReadCtx.Keys == s.nodes.Keys && LogOk(r.log)
    && t.nodes == s.nodes[a.v := Advance(r)]
    && t.nextReadCtx == (if a.Read? then s.nextReadCtx[a.v := s.nextReadCtx[a.v] + 1] else s.nextReadCtx)
    && (forall m :: m in t.net <==> m in s.net || m in r.msgs)
    && (a.Deliver? ==> a.m in s.net && a.m.to == a.v)
    && (forall m :: m in r.msgs ==> m.from == a.v)
    && ReadStep(s.nodes[a.v], r, a, s.nextReadCtx[a.v])
  }

  lemma DoneHandles(s: Cluster, a: Action)
    requires Polled(s) && Possible(s, a) && ReadsOk(s) && Persists(a) && HandledAt(s, a).Some? && LogOk(HandledAt(s, a).value.log)
    ensures var r := HandledAt(s, a).value; Handles(s, a, r, Done(s, a, r))
  {
    hide Polled, NodePolled, DiskPolled, MsgPolled, Polls, Moves, Grows, Handled, History, ReadStep, Advance, DurableOf, MessageGiven, Synced;
    PolledNode(s, a.v);
    HandledPolled(s, a);
    PolledLog(s.core, s.nodes[a.v], a.v);
    var r := HandledAt(s, a).value;
    SentFrom(History(s.core, s.nodes[a.v], r, a), r, a.v);
    HandledReads(s.nodes[a.v], a, s.nextReadCtx[a.v]);
  }

  lemma SentFrom(d: Core, r: Node, v: Id)
    requires NodePolled(d, r, v) && OutPolled(d, r)
    ensures forall m :: m in r.msgs ==> m.from == v
  {
    hide VoteView, MsgPolled;
  }

  lemma HandlesReign(s: Cluster, a: Action, r: Node, t: Cluster, u: Id, term: nat)
    requires Polled(s) && Polled(t) && Grows(s.core, t.core) && Handles(s, a, r, t) && u in s.nodes && LeadsAt(t, u, term) && term in s.core.lead
    ensures LeadsAt(s, u, term)
  {
    hide Polled, NodePolled, DiskPolled, MsgPolled, Polls, Grows, ContextSent, ContextEchoed, PendingFrom, SurfacedFrom;
    if u == a.v && s.nodes[u].role != Leader { NewLeaderTerm(s, a, r); }
    SameReign(s, a, t, u, term);
  }

  lemma HandlesGiven(s: Cluster, a: Action, r: Node, t: Cluster, u: Id, term: nat, x: nat)
    requires Polled(s) && Polled(t) && Grows(s.core, t.core) && Handles(s, a, r, t) && u in s.nodes && term in s.core.lead && Given(s, u, term, x)
    ensures Given(t, u, term, x)
  {
    hide Polled, NodePolled, DiskPolled, MsgPolled, Polls, Grows, ReadStep;
    if LeadsAt(t, u, term) { HandlesReign(s, a, r, t, u, term); }
  }

  lemma MessageEnds(s: Cluster, m: Message)
    requires Polled(s) && m in s.net
    ensures m.from in s.nodes && m.to in s.nodes && m.from != m.to
    ensures m.body.AppendEntries? ==> m.term in s.core.lead
  {
    hide Polls, NodePolled, DiskPolled;
    PolledMsg(s, m);
  }

  /** A message just sent. */
  lemma SentGiven(s: Cluster, a: Action, r: Node, t: Cluster, m: Message)
    requires Polled(s) && Polled(t) && Grows(s.core, t.core) && ReadsOk(s) && Handles(s, a, r, t) && m in r.msgs
    ensures MessageGiven(t, m)
  {
    hide Polled, NodePolled, DiskPolled, MsgPolled, Polls, Grows, PendingFrom, SurfacedFrom;
    MessageEnds(t, m);
    assert ContextSent(s.nodes[a.v], a, s.nextReadCtx[a.v], m) && ContextEchoed(s.nodes[a.v], a, m);
    if m.body.AppendEntriesResponse? && m.body.readCtx != 0 {
      MessageEnds(s, a.m);
      assert MessageGiven(s, a.m);
      HandlesGiven(s, a, r, t, m.to, m.term, m.body.readCtx);
      TermKept(s, t, m.term);
    }
  }

  lemma TermKept(s: Cluster, t: Cluster, term: nat)
    requires Grows(s.core, t.core) && term in s.core.lead
    ensures term in t.core.lead
  {
  }

  lemma HandlesReads(s: Cluster, a: Action, r: Node, t: Cluster)
    requires Polled(s) && Polled(t) && Grows(s.core, t.core) && ReadsOk(s) && Handles(s, a, r, t)
    ensures ReadsOk(t)
  {
    hide Polled, NodePolled, DiskPolled, MsgPolled, Polls, Grows, ContextSent, ContextEchoed, SurfacedFrom, Given;
    forall v | v in t.nodes
      ensures v in t.nextReadCtx && NodeGiven(t.nodes[v], t.nextReadCtx[v])
    {
      assert NodeGiven(s.nodes[v], s.nextReadCtx[v]);
      if v == a.v && r.role == Leader {
        forall k | k in r.pendingReads
          ensures k < t.nextReadCtx[v]
        {
          assert PendingFrom(s.nodes[v], r, a, s.nextReadCtx[v], k);
        }
      }
    }
    forall m | m in t.net
      ensures MessageGiven(t, m)
    {
      if m in r.msgs {
        SentGiven(s, a, r, t, m);
      } else {
        OldGiven(s, a, r, t, m);
      }
    }
  }

  lemma OldGiven(s: Cluster, a: Action, r: Node, t: Cluster, m: Message)
    requires Polled(s) && Polled(t) && Grows(s.core, t.core) && Handles(s, a, r, t) && m in s.net && MessageGiven(s, m)
    ensures MessageGiven(t, m)
  {
    hide Polled, NodePolled, DiskPolled, MsgPolled, Polls, Grows, Given, Handles;
    MessageEnds(s, m);
    if m.term in s.core.lead { TermKept(s, t, m.term); }
    if m.body.AppendEntries? && m.body.readCtx != 0 {
      HandlesGiven(s, a, r, t, m.from, m.term, m.body.readCtx);
    } else if m.body.AppendEntriesResponse? && m.body.readCtx != 0 {
      HandlesGiven(s, a, r, t, m.to, m.term, m.body.readCtx);
    }
  }

  lemma SilentReads(s: Cluster, t: Cluster, v: Id)
    requires Polled(s) && Grows(s.core, t.core) && ReadsOk(s) && Silent(s, t, v)
    ensures ReadsOk(t)
  {
    hide Polled, NodePolled, DiskPolled, MsgPolled, Polls, Grows;
    forall u | u in t.nodes
      ensures u in t.nextReadCtx && NodeGiven(t.nodes[u], t.nextReadCtx[u])
    {
      assert NodeGiven(s.nodes[u], s.nextReadCtx[u]);
    }
    forall m | m in t.net
      ensures MessageGiven(t, m)
    {
      assert MessageGiven(s, m);
      if m.term in s.core.lead { TermKept(s, t, m.term); }
    }
  }

  /** Contexts stay fresh over every step. */
  lemma ReadsKept(s: Cluster, a: Action)
    requires Polled(s) && ReadsOk(s) && Possible(s, a)
    ensures ReadsOk(After(s, a))
  {
    hide Polled, NodePolled, DiskPolled, MsgPolled, Polls, Moves, Grows, ReadsOk, Silent, Handles, After, Done;
    PolledStep(s, a);
    MovesIds(s.core, After(s, a).core, a.v);
    StepShape(s, a);
    if Persists(a) && HandledAt(s, a).Some? {
      DoneHandles(s, a);
      HandlesReads(s, a, HandledAt(s, a).value, After(s, a));
    } else {
      SilentReads(s, After(s, a), a.v);
    }
  }

  lemma {:induction false} RunReads(states: seq<Cluster>, actions: seq<Action>, i: nat)
    requires PossibleRun(states, actions) && i < |states|
    ensures Polled(states[i]) && ReadsOk(states[i])
  {
    hide Polled, NodePolled, DiskPolled, MsgPolled, Polls, ReadsOk, PossibleRun, Possible, After;
    PossibleStart(states, actions);
    RunPolled(states, actions, i);
    if i == 0 {
      InitialReads(states[0]);
    } else {
      RunReads(states, actions, i - 1);
      PossibleStep(states, actions, i - 1);
      ReadsKept(states[i - 1], actions[i - 1]);
    }
  }

  lemma InitialReads(s: Cluster)
    requires Initial(s)
    ensures ReadsOk(s)
  {
    hide Wired, Unwritten;
  }

  // ---------------------------------------------------------------- one read

  /** A node had not passed term t in the history c. */
  predicate Behind(c: Core, p: Id, t: nat) { p in c.term && c.term[p] <= t }

  /**
   * The read with context x that v requested, leading term t at commit index `index`, when the
   * history was c: whoever has confirmed it had not passed t at the request.
   */
  ghost predicate Pledged(c: Core, v: Id, t: nat, x: nat, index: nat, s: Cluster) {
    && x != 0 && v in s.nodes && v in s.nextReadCtx && t in s.core.lead && Grows(c, s.core)
    && (LeadsAt(s, v, t) ==> x < s.nextReadCtx[v])
    && (LeadsAt(s, v, t) && x in s.nodes[v].pendingReads ==> PledgedRead(c, t, index, s.nodes[v].pendingReads[x]))
    && (forall m :: m in s.net ==> PledgedAnswer(c, v, t, x, m))
  }

  ghost predicate PledgedRead(c: Core, t: nat, index: nat, pr: PendingRead) {
    pr.index == index && forall p :: p in pr.acked ==> Behind(c, p, t)
  }

  ghost predicate PledgedAnswer(c: Core, v: Id, t: nat, x: nat, m: Message) {
    m.body.AppendEntriesResponse? && m.body.readCtx == x && m.to == v && m.term == t ==> Behind(c, m.from, t)
  }

  lemma BehindBefore(c: Core, d: Core, p: Id, t: nat)
    requires Grows(c, d) && p in d.term && d.term[p] <= t
    ensures Behind(c, p, t)
  {
  }

  /** The request itself. */
  lemma RequestPledges(s: Cluster, a: Action, r: Node, t: Cluster)
    requires Polled(s) && ReadsOk(s) && a.Read? && Handles(s, a, r, t) && s.nodes[a.v].role == Leader && Grows(s.core, t.core)
    ensures Pledged(s.core, a.v, s.nodes[a.v].currentTerm, s.nextReadCtx[a.v], s.nodes[a.v].commitIndex, t)
  {
    hide Polled, NodePolled, DiskPolled, MsgPolled, Polls, Grows, ContextSent, SurfacedFrom;
    var v, n, x := a.v, s.nodes[a.v], s.nextReadCtx[a.v];
    LeaderBehind(s, v);
    TermKept(s, t, n.currentTerm);
    assert NodeGiven(n, x);
    if LeadsAt(t, v, n.currentTerm) && x in r.pendingReads {
      assert PendingFrom(n, r, a, x, x);
    }
    forall m | m in t.net
      ensures PledgedAnswer(s.core, v, n.currentTerm, x, m)
    {
      if m in s.net {
        assert MessageGiven(s, m);
      } else {
        assert ContextEchoed(n, a, m);
      }
    }
  }

  lemma LeaderBehind(s: Cluster, v: Id)
    requires Polled(s) && v in s.nodes && s.nodes[v].role == Leader
    ensures s.nodes[v].currentTerm in s.core.lead && Behind(s.core, v, s.nodes[v].currentTerm) && s.nodes[v].id == v
  {
    hide Polled, NodePolled, DiskPolled, Polls;
    LeaderPolledAt(s, v);
    PolledNode(s, v);
    PolledLog(s.core, s.nodes[v], v);
  }

  lemma SilentPledge(c: Core, v: Id, term: nat, x: nat, index: nat, s: Cluster, t: Cluster, w: Id)
    requires Pledged(c, v, term, x, index, s) && Silent(s, t, w) && Grows(s.core, t.core)
    ensures Pledged(c, v, term, x, index, t)
  {
    hide Grows;
    GrowsTrans(c, s.core, t.core);
    TermKept(s, t, term);
  }

  lemma AnswerPledges(c: Core, v: Id, term: nat, x: nat, s: Cluster, a: Action, r: Node, t: Cluster, m: Message)
    requires Polled(s) && Grows(c, s.core) && Handles(s, a, r, t) && m in r.msgs && x != 0
    ensures PledgedAnswer(c, v, term, x, m)
  {
    hide Polled, NodePolled, DiskPolled, MsgPolled, Polls, Grows, PendingFrom, SurfacedFrom, Synced;
    assert ContextEchoed(s.nodes[a.v], a, m);
    PolledNode(s, a.v);
    PolledLog(s.core, s.nodes[a.v], a.v);
    if m.body.AppendEntriesResponse? && m.body.readCtx == x && m.term == term {
      BehindBefore(c, s.core, m.from, term);
    }
  }

  lemma PendingPledge(c: Core, v: Id, term: nat, x: nat, index: nat, s: Cluster, a: Action, r: Node, t: Cluster)
    requires Polled(s) && Polled(t) && Pledged(c, v, term, x, index, s) && Handles(s, a, r, t) && Grows(s.core, t.core) && LeadsAt(t, v, term)
    ensures x < t.nextReadCtx[v]
    ensures x in t.nodes[v].pendingReads ==> PledgedRead(c, term, index, t.nodes[v].pendingReads[x])
  {
    hide Polled, NodePolled, DiskPolled, MsgPolled, Polls, Grows, ContextSent, ContextEchoed, SurfacedFrom;
    HandlesReign(s, a, r, t, v, term);
    if v == a.v && x in r.pendingReads {
      assert PendingFrom(s.nodes[v], r, a, s.nextReadCtx[v], x);
      if Confirms(s.nodes[v], a, x) {
        assert PledgedAnswer(c, v, term, x, a.m);
      }
    }
  }

  lemma HandlesPledge(c: Core, v: Id, term: nat, x: nat, index: nat, s: Cluster, a: Action, r: Node, t: Cluster)
    requires Polled(s) && Polled(t) && Pledged(c, v, term, x, index, s) && Handles(s, a, r, t) && Grows(s.core, t.core)
    ensures Pledged(c, v, term, x, index, t)
  {
    hide Polled, NodePolled, DiskPolled, MsgPolled, Polls, Grows, ReadStep, PledgedRead, PledgedAnswer;
    GrowsTrans(c, s.core, t.core);
    TermKept(s, t, term);
    if LeadsAt(t, v, term) { PendingPledge(c, v, term, x, index, s, a, r, t); }
    forall m | m in t.net
      ensures PledgedAnswer(c, v, term, x, m)
    {
      if m !in s.net { AnswerPledges(c, v, term, x, s, a, r, t, m); }
    }
  }

  lemma PledgeKept(c: Core, v: Id, term: nat, x: nat, index: nat, s: Cluster, a: Action)
    requires Polled(s) && ReadsOk(s) && Pledged(c, v, term, x, index, s) && Possible(s, a)
    ensures Pledged(c, v, term, x, index, After(s, a))
  {
    hide Polled, NodePolled, DiskPolled, MsgPolled, Polls, Moves, Grows, ReadsOk, Silent, Handles, After, Done, Pledged;
    PolledStep(s, a);
    MovesIds(s.core, After(s, a).core, a.v);
    StepShape(s, a);
    if Persists(a) && HandledAt(s, a).Some? {
      DoneHandles(s, a);
      HandlesPledge(c, v, term, x, index, s, a, HandledAt(s, a).value, After(s, a));
    } else {
      SilentPledge(c, v, term, x, index, s, After(s, a), a.v);
    }
  }

  /** The step at i is v's request of a read, as the leader of a term. */
  ghost predicate Requests(states: seq<Cluster>, actions: seq<Action>, i: nat, v: Id) {
    PossibleRun(states, actions) && i < |actions| && actions[i] == Read(v) && v in states[i].nodes && states[i].nodes[v].role == Leader
    && v in states[i].nextReadCtx
  }

  lemma {:induction false} RunPledged(states: seq<Cluster>, actions: seq<Action>, i: nat, j: nat, v: Id)
    requires Requests(states, actions, i, v) && i < j < |states|
    ensures Polled(states[j]) && ReadsOk(states[j])
    ensures Pledged(states[i].core, v, states[i].nodes[v].currentTerm, states[i].nextReadCtx[v], states[i].nodes[v].commitIndex, states[j])
    decreases j
  {
    hide Polled, NodePolled, DiskPolled, MsgPolled, Polls, ReadsOk, PossibleRun, Pledged, After, Moves, Grows, Handles, Silent, Done;
    PossibleStart(states, actions);
    RunReads(states, actions, j);
    RunReads(states, actions, j - 1);
    PossibleStep(states, actions, j - 1);
    if j == i + 1 {
      PolledStep(states[i], actions[i]);
      MovesIds(states[i].core, states[j].core, v);
      ReadIsHandled(states[i], actions[i]);
      DoneHandles(states[i], actions[i]);
      RequestPledges(states[i], actions[i], HandledAt(states[i], actions[i]).value, states[j]);
    } else {
      RunPledged(states, actions, i, j - 1, v);
      PledgeKept(states[i].core, v, states[i].nodes[v].currentTerm, states[i].nextReadCtx[v], states[i].nodes[v].commitIndex,
                 states[j - 1], actions[j - 1]);
    }
  }

  lemma ReadIsHandled(s: Cluster, a: Action)
    requires Possible(s, a) && a.Read?
    ensures HandledAt(s, a).Some? && LogOk(HandledAt(s, a).value.log) && After(s, a) == Done(s, a, HandledAt(s, a).value)
  {
    hide AfterReadRequest, Done;
    HandledLogOk(s.nodes[a.v], a, s.nextReadCtx[a.v]);
  }

  // ----------------------------------------------------------------- theorems

  /** The step surfaces a read: Ready reports it to the caller. */
  ghost predicate Surfaces(states: seq<Cluster>, actions: seq<Action>, j: nat, v: Id, rs: ReadState) {
    && PossibleRun(states, actions) && j < |actions| && j < |states| && Possible(states[j], actions[j])
    && actions[j].v == v && Persists(actions[j]) && v in states[j].nodes
    && HandledAt(states[j], actions[j]).Some? && rs in HandledAt(states[j], actions[j]).value.readStates
  }

  /** Nobody beyond term t had been elected if a majority had not passed t. */
  lemma NoneLater(c: Core, q: set<Id>, t: nat)
    requires Polls(c) && IsQuorum(c.ids, q) && forall p :: p in q ==> Behind(c, p, t)
    ensures forall u :: u in c.lead ==> u <= t
  {
    forall u | u in c.lead
      ensures u <= t
    {
      var p := QuorumsMeet(c.ids, q, c.elect[u]);
      assert Behind(c, p, t) && Ballot(u, p, c.lead[u]) in c.votes;
    }
  }

  lemma MajorityQuorum(s: Cluster, v: Id, q: set<Id>)
    requires Polled(s) && v in s.nodes && q <= s.core.ids && HasMajority(s.nodes[v], |q|)
    ensures IsQuorum(s.core.ids, q)
  {
    hide Polled, Polls, VoteView, DiskPolled;
    PolledNode(s, v);
    CountedQuorum(s.core, s.nodes[v], v, q);
  }

  /** The majority behind a surfaced read. */
  lemma SurfacedQuorum(c: Core, t: nat, x: nat, index: nat, s: Cluster, a: Action, r: Node, u: Cluster, rs: ReadState)
    requires Polled(s) && Polls(c) && Pledged(c, a.v, t, x, index, s) && Handles(s, a, r, u) && rs in r.readStates && rs.ctx == x
    requires s.nodes[a.v].currentTerm == t && c.ids == c.term.Keys && c.ids == s.core.ids
    ensures rs.index == index && forall w :: w in c.lead ==> w <= t
  {
    hide Polled, NodePolled, DiskPolled, MsgPolled, Polls, Grows, HasMajority, ContextSent, ContextEchoed, PendingFrom;
    var n := s.nodes[a.v];
    assert SurfacedFrom(n, a, s.nextReadCtx[a.v], rs);
    assert LeadsAt(s, a.v, t) && x < s.nextReadCtx[a.v];
    assert Confirms(n, a, x);
    var q := n.pendingReads[x].acked + {a.m.from};
    assert PledgedRead(c, t, index, n.pendingReads[x]);
    assert PledgedAnswer(c, a.v, t, x, a.m);
    assert forall p :: p in q ==> Behind(c, p, t);
    MajorityQuorum(s, a.v, q);
    NoneLater(c, q, t);
  }

  lemma HistoryIds(s: Cluster, t: Cluster)
    requires Polled(s) && Grows(s.core, t.core)
    ensures Polls(s.core) && s.core.ids == s.core.term.Keys && s.core.ids == t.core.ids
  {
    hide NodePolled, DiskPolled, MsgPolled;
  }

  lemma SurfacedAtOnce(s: Cluster, a: Action, r: Node, u: Cluster, rs: ReadState)
    requires Polled(s) && ReadsOk(s) && Handles(s, a, r, u) && a.Read? && s.nodes[a.v].role == Leader
    requires rs in r.readStates && rs.ctx == s.nextReadCtx[a.v]
    ensures rs.index == s.nodes[a.v].commitIndex && forall w :: w in s.core.lead ==> w <= s.nodes[a.v].currentTerm
  {
    hide Polled, NodePolled, DiskPolled, MsgPolled, Polls, HasMajority, ContextSent, ContextEchoed, PendingFrom, Synced;
    var v, n := a.v, s.nodes[a.v];
    assert SurfacedFrom(n, a, s.nextReadCtx[v], rs);
    PolledNode(s, v);
    LeaderBehind(s, v);
    MajorityQuorum(s, v, {v});
    NoneLater(s.core, {v}, n.currentTerm);
  }

  /** A surfaced read carries the commit index of its request, and no later leader existed then. */
  lemma ReadConfirmed(states: seq<Cluster>, actions: seq<Action>, i: nat, j: nat, v: Id, rs: ReadState)
    requires Requests(states, actions, i, v) && i <= j && Surfaces(states, actions, j, v, rs)
    requires rs.ctx == states[i].nextReadCtx[v] && states[j].nodes[v].currentTerm == states[i].nodes[v].currentTerm
    ensures rs.index == states[i].nodes[v].commitIndex
    ensures forall w :: w in states[i].core.lead ==> w <= states[i].nodes[v].currentTerm
  {
    hide Polled, NodePolled, DiskPolled, MsgPolled, Polls, ReadsOk, PossibleRun, Pledged, Handles, Grows, Handled, Done;
    var s, a, r := states[j], actions[j], HandledAt(states[j], actions[j]).value;
    PossibleStart(states, actions);
    RunReads(states, actions, j);
    HandledLogOk(s.nodes[v], a, s.nextReadCtx[v]);
    DoneHandles(s, a);
    if i == j {
      SurfacedAtOnce(s, a, r, Done(s, a, r), rs);
    } else {
      RunPledged(states, actions, i, j, v);
      RunGrows(states, actions, i, j);
      HistoryIds(states[i], s);
      SurfacedQuorum(states[i].core, states[i].nodes[v].currentTerm, rs.ctx, states[i].nodes[v].commitIndex, s, a, r, Done(s, a, r), rs);
    }
  }

  /**
   * ReadIndex, first half: in any possible run, when a leader surfaces a read, no node had become
   * leader of a higher term by the time of the request.
   */
  lemma ReadNotSuperseded(states: seq<Cluster>, actions: seq<Action>, i: nat, j: nat, v: Id, rs: ReadState, h: nat, w: Id)
    requires Requests(states, actions, i, v) && i <= j && Surfaces(states, actions, j, v, rs)
    requires rs.ctx == states[i].nextReadCtx[v] && states[j].nodes[v].currentTerm == states[i].nodes[v].currentTerm
    requires h <= i && w in states[h].nodes && states[h].nodes[w].role == Leader
    ensures states[h].nodes[w].currentTerm <= states[i].nodes[v].currentTerm
  {
    hide Polled, NodePolled, DiskPolled, MsgPolled, Polls, PossibleRun, Grows, Surfaces;
    PossibleStart(states, actions);
    ReadConfirmed(states, actions, i, j, v, rs);
    RunGrows(states, actions, h, i);
    LeaderPolledAt(states[h], w);
    TermKept(states[h], states[i], states[h].nodes[w].currentTerm);
  }
}

/** When a surfaced read covers everything committed before it was requested. */
module RaftReadFreshness {
  import opened RaftTypes
  import opened RaftCore
  import opened RaftNode
  import opened RaftCluster
  import opened RaftSteps
  import opened RaftRuns
  import opened RaftStable
  import opened RaftSending
  import opened RaftInvariant
  import opened RaftSafety
  import opened RaftReads

  /** No leader of a later term had been elected. */
  predicate Latest(s: Cluster, v: Id) { v in s.nodes && forall w :: w in s.core.lead ==> w <= s.nodes[v].currentTerm }

  lemma OwnCommit(s: Cluster, v: Id, k: nat)
    requires Good(s) && v in s.nodes && s.nodes[v].role == Leader && Latest(s, v)
    requires 1 <= k <= |s.core.committed| && s.core.committed[k - 1].term == s.nodes[v].currentTerm
    ensures s.nodes[v].commitIndex == |s.core.committed|
  {
    hide Good, InvGlue, InvVotes, InvBallots, InvSafe, InvKeep, LogView, VoteView, CandidateView, LeaderView, Wired, DiskOk, Synced;
    GoodNode(s, v);
    CommittedLog(s.core);
  }

  /** The first entry the leader has not committed, if there is one, is of its own term. */
  predicate NextOwn(n: Node) {
    LogOk(n.log) && n.commitIndex < LastIndex(n.log) ==> TermIn(n.log, n.commitIndex + 1) == n.currentTerm
  }

  /** The last leader's log holds all that is committed. */
  lemma CommittedHere(s: Cluster, v: Id)
    requires Good(s) && v in s.nodes && s.nodes[v].role == Leader && Latest(s, v)
    ensures Inv(s.core) && v in s.core.log && Shares(s.core.committed, s.core.log[v], |s.core.committed|)
  {
    hide Good, Inv, NodeOk, DiskOk, Synced, CommittedBy;
    var c := s.core;
    LeaderKnown(s, v);
    CommittedLog(c);
    if c.committed != [] {
      assert LastTerm(c.committed) in c.lead by { SameKeys(c); }
      CommittedInLeader(c, LastTerm(c.committed), c.committed, |c.committed|, s.nodes[v].currentTerm);
    }
  }

  /** Such a leader has committed all there is: what it lacks would be an entry of its own term. */
  lemma NothingElsewhere(s: Cluster, v: Id)
    requires Good(s) && v in s.nodes && s.nodes[v].role == Leader && Latest(s, v) && NextOwn(s.nodes[v])
    ensures |s.core.committed| <= s.nodes[v].commitIndex
  {
    hide Good, Inv, NodeOk, DiskOk, Synced, Latest;
    var c, n := s.core, s.nodes[v];
    CommittedHere(s, v);
    GoodNode(s, v);
    NodeLog(c, n, v);
    NodeCommit(c, n, v);
    if n.commitIndex < |c.committed| {
      assert c.committed[n.commitIndex] == c.log[v][n.commitIndex];
      OwnCommit(s, v, n.commitIndex + 1);
    }
  }

  /** After an entry of its own term a leader's log has no older one. */
  lemma OwnFrom(c: Core, t: nat, k: nat, j: nat)
    requires t in c.tlog && 1 <= k <= j <= |c.tlog[t]| && c.tlog[t][k - 1].term == t && Inv(c)
    ensures c.tlog[t][j - 1].term == t
  {
    hide InvVotes, InvBallots, InvSafe, InvKeep, InvCommitted;
    assert GluedAt(c, c.tlog[t], j - 1);
    var u := c.tlog[t][j - 1].term;
    assert c.tlog[u][k - 1] == c.tlog[t][..j][k - 1];
  }

  /** A committed entry of its own term is enough. */
  lemma OwnCommitNext(s: Cluster, v: Id, k: nat)
    requires Good(s) && v in s.nodes && s.nodes[v].role == Leader && Latest(s, v)
    requires 1 <= k <= |s.core.committed| && s.core.committed[k - 1].term == s.nodes[v].currentTerm
    ensures NextOwn(s.nodes[v])
  {
    hide Good, Inv, NodeOk, DiskOk, Synced, Latest;
    var c, n := s.core, s.nodes[v];
    CommittedHere(s, v);
    LeaderKnown(s, v);
    GoodNode(s, v);
    NodeLog(c, n, v);
    NodeCommit(c, n, v);
    OwnCommit(s, v, k);
    if n.commitIndex < LastIndex(n.log) {
      assert c.committed[k - 1] == c.log[v][k - 1];
      OwnFrom(c, n.currentTerm, k, n.commitIndex + 1);
    }
  }

  lemma SameKeys(c: Core)
    requires Inv(c)
    ensures forall t :: t in c.tlog ==> t in c.lead
  {
    hide InvGlue, InvVotes, InvBallots, InvSafe, InvKeep, InvCommitted;
    assert c.lead.Keys == c.tlog.Keys;
  }

  /** The request and the answer of one read by the leader of a term. */
  ghost predicate Answered(states: seq<Cluster>, actions: seq<Action>, i: nat, j: nat, v: Id, rs: ReadState) {
    && Requests(states, actions, i, v) && i <= j && Surfaces(states, actions, j, v, rs)
    && rs.ctx == states[i].nextReadCtx[v] && states[j].nodes[v].currentTerm == states[i].nodes[v].currentTerm
  }

  lemma AnsweredAt(states: seq<Cluster>, actions: seq<Action>, i: nat, j: nat, v: Id, rs: ReadState)
    requires Run(states, actions) && Answered(states, actions, i, j, v, rs)
    ensures |states| == |actions| + 1 && i < |states| && Good(states[i]) && v in states[i].nodes && states[i].nodes[v].role == Leader
    ensures Latest(states[i], v) && rs.index == states[i].nodes[v].commitIndex
  {
    hide Good, Run, Surfaces, PossibleRun;
    RunShape(states, actions);
    RunGood(states, actions, i);
    ReadConfirmed(states, actions, i, j, v, rs);
  }

  /**
   * ReadIndex, second half: unless the first entry the leader had not committed was of an earlier term,
   * the surfaced index covers whatever any node had committed by the time of the request.
   */
  lemma ReadFresh(states: seq<Cluster>, actions: seq<Action>, i: nat, j: nat, v: Id, rs: ReadState, h: nat, w: Id)
    requires Run(states, actions) && Answered(states, actions, i, j, v, rs) && NextOwn(states[i].nodes[v])
    requires h <= i && w in states[h].nodes
    ensures states[h].nodes[w].commitIndex <= rs.index
  {
    hide Good, Run, Extends, Answered, Inv, NextOwn;
    AnsweredAt(states, actions, i, j, v, rs);
    NothingElsewhere(states[i], v);
    RunExtends(states, actions, h, i);
    CommitWithin(states[h], states[i], w);
  }

  /** So it does if an entry of the leader's own term had been committed by then, by any node. */
  lemma ReadFreshOwnTerm(states: seq<Cluster>, actions: seq<Action>, i: nat, j: nat, v: Id, rs: ReadState, g: nat, u: Id, k: nat, h: nat, w: Id)
    requires Run(states, actions) && Answered(states, actions, i, j, v, rs)
    requires g <= i && u in states[g].nodes && HasCommitted(states[g].nodes[u], k)
    requires EntryAt(states[g].nodes[u], k).term == states[i].nodes[v].currentTerm
    requires h <= i && w in states[h].nodes
    ensures states[h].nodes[w].commitIndex <= rs.index
  {
    hide Good, Run, Extends, Answered, Inv, EntryAt, NextOwn;
    AnsweredAt(states, actions, i, j, v, rs);
    RunExtends(states, actions, g, i);
    CommittedEntry(states[g], u, k);
    CommittedGrows(states[g].core, states[i].core, k);
    OwnCommitNext(states[i], v, k);
    ReadFresh(states, actions, i, j, v, rs, h, w);
  }

  /** And if the leader had committed its whole log. */
  lemma ReadFreshAtEnd(states: seq<Cluster>, actions: seq<Action>, i: nat, j: nat, v: Id, rs: ReadState, h: nat, w: Id)
    requires Run(states, actions) && Answered(states, actions, i, j, v, rs)
    requires LogOk(states[i].nodes[v].log) && states[i].nodes[v].commitIndex == LastIndex(states[i].nodes[v].log)
    requires h <= i && w in states[h].nodes
    ensures states[h].nodes[w].commitIndex <= rs.index
  {
    hide Run, Answered;
    ReadFresh(states, actions, i, j, v, rs, h, w);
  }
}
