/** What one step of a node does to the cluster and to its history. */
module RaftSteps {
  import opened Bytes
  import opened RaftTypes
  import opened RaftCore
  import opened RaftEvents
  import opened RaftNode
  import opened RaftCluster

  datatype Action =
    | Timeout(v: Id)
    | Heartbeat(v: Id)
    | Propose(v: Id, datas: seq<Bytes>)
    | Read(v: Id)
    | Deliver(v: Id, m: Message)
    | Compact(v: Id, index: nat, data: Bytes)
    | Restart(v: Id)
    | Crash(v: Id, during: Action, left: Durable)

  /** The actions that run a handler and then Persist. */
  predicate Persists(a: Action) { !a.Compact? && !a.Restart? && !a.Crash? }

  /** The handler an action runs; None where it panics. */
  function Handled(n: Node, a: Action, ctx: nat): Option<Node>
    requires LogOk(n.log) && Persists(a)
    requires a.Deliver? && a.m.body.AppendEntries? ==> EntriesOk(a.m.body.prevIndex, a.m.body.entries)
  {
    match a
    case Timeout(_) => Some(if n.role == Leader then n else BecomePreCandidate(n))
    case Heartbeat(_) => Some(AfterHeartbeat(n))
    case Propose(_, datas) => Some(AfterPropose(n, datas))
    case Read(_) => Some(AfterReadRequest(n, ctx))
    case Deliver(_, m) => AfterStep(n, m)
  }

  // ---------------------------------------------------------------- history

  /** A leader that moved its commit index has chosen that entry. */
  function HistCommit(c: Core, n: Node, r: Node): Core {
    if r.commitIndex > n.commitIndex && r.currentTerm in c.tlog && r.commitIndex <= |c.tlog[r.currentTerm]|
    then Commit(c, r.currentTerm, r.commitIndex) else c
  }

  /** A node stood for election, and won at once if it is alone. */
  function HistCampaign(c: Core, n: Node, r: Node): Core
    requires n.id in c.term && n.id in c.log
  {
    if r.currentTerm == n.currentTerm then c
    else
      var stood := Vote(Stand(Raise(c, n.id, r.currentTerm), n.id), n.id, n.id);
      if r.role == Leader then HistCommit(Elect(stood, n.id, r.votesReceived), n, r) else stood
  }

  function HistVote(c: Core, n: Node, r: Node): Core
    requires n.id in c.term && n.id in c.log
  {
    var raised := Raise(c, n.id, r.currentTerm);
    if r.votedFor != 0 then Vote(raised, n.id, r.votedFor) else raised
  }

  function HistElect(c: Core, n: Node, r: Node): Core
    requires n.id in c.term && n.id in c.log
  {
    var raised := Raise(c, n.id, r.currentTerm);
    if r.role == Leader && n.role != Leader then Elect(raised, n.id, r.votesReceived) else raised
  }

  predicate Accepts(n: Node, m: Message)
    requires LogOk(n.log) && m.body.AppendEntries?
  {
    m.term >= n.currentTerm && m.body.prevIndex <= LastIndex(n.log) && TermIn(n.log, m.body.prevIndex) == m.body.prevTerm
  }

  function HistMatch(c: Core, n: Node, r: Node, k: nat): Core
    requires n.id in c.term && n.id in c.log
  {
    var raised := Raise(c, n.id, r.currentTerm);
    if r.currentTerm in c.tlog && LogOk(r.log) && Base(r.log) <= |c.committed|
    then Match(raised, n.id, k, Full(c.committed, r.log)) else raised
  }

  function HistAppend(c: Core, n: Node, r: Node): Core
    requires n.id in c.term && n.id in c.log
  {
    if n.role == Leader && |n.log| <= |r.log| then HistCommit(Append(c, n.id, r.log[|n.log|..]), n, r) else c
  }

  /** How the history grows when action a takes node n to r. */
  function History(c: Core, n: Node, r: Node, a: Action): Core
    requires n.id in c.term && n.id in c.log && LogOk(n.log)
  {
    match a
    case Timeout(_) => HistCampaign(c, n, r)
    case Propose(_, _) => HistAppend(c, n, r)
    case Deliver(_, m) =>
      if m.to != n.id then c
      else (match m.body
            case PreVote(_, _) => c
            case PreVoteResponse(_) => HistCampaign(c, n, r)
            case RequestVote(_, _) => HistVote(c, n, r)
            case RequestVoteResponse(_) => HistElect(c, n, r)
            case AppendEntries(prev, _, es, _, _) =>
              if Accepts(n, m) then HistMatch(c, n, r, prev + |es|) else Raise(c, n.id, r.currentTerm)
            case AppendEntriesResponse(_, _, _) => HistCommit(Raise(c, n.id, r.currentTerm), n, r)
            case InstallSnapshot(_) => if LogOk(r.log) then HistMatch(c, n, r, Base(r.log)) else c
            case InstallSnapshotResponse(_) => HistCommit(Raise(c, n.id, r.currentTerm), n, r))
    case _ => c
  }

  /** How it grows when node n was on its way to r and a crash left e on disk. */
  function HistCrash(c: Core, n: Node, r: Node, a: Action, d: Durable, e: Durable): Core
    requires n.id in c.term && n.id in c.log && LogOk(n.log) && LogOk(e.log)
  {
    if e == DurableOf(r) then History(c, n, r, a)
    else if e == d then c
    else if a.Propose? && |n.log| <= |e.log| then Append(c, n.id, e.log[|n.log|..])
    else
      var raised := Raise(c, n.id, e.term);
      if e.log != d.log && e.term in c.tlog && Base(e.log) <= |c.committed|
      then Match(raised, n.id, LastIndex(e.log), Full(c.committed, e.log)) else raised
  }

  // ------------------------------------------------------------------- steps

  /** Nothing in the log follows the snapshot's own last entry. */
  predicate Ends(log: seq<Entry>, snap: Snapshot)
    requires LogOk(log)
  {
    LastIndex(log) <= snap.lastIndex || TermIn(log, snap.lastIndex) != snap.lastTerm
  }

  /** A snapshot that is installed drops nothing that follows it. */
  predicate Installable(n: Node, m: Message)
    requires LogOk(n.log)
  {
    m.body.InstallSnapshot? && m.term >= n.currentTerm && m.body.snap.lastIndex > Base(n.log) ==> Ends(n.log, m.body.snap)
  }

  /** The shape every reachable cluster has (see `RaftPolls.RunPolled`). */
  predicate Formed(s: Cluster) {
    && s.disk.Keys == s.nodes.Keys == s.nextReadCtx.Keys
    && (forall v :: v in s.nodes ==>
          && LogOk(s.nodes[v].log) && LogOk(s.disk[v].log)
          && s.nodes[v].id in s.core.term && s.nodes[v].id in s.core.log)
    && (forall m :: m in s.net && m.body.AppendEntries? ==> EntriesOk(m.body.prevIndex, m.body.entries))
  }

  /** What may happen next: any message ever sent may be delivered, and a crash may hit any Persist. */
  predicate Possible(s: Cluster, a: Action) {
    && Formed(s) && a.v in s.nodes
    && (a.Deliver? ==> a.m in s.net && a.m.to == a.v)
    && (a.Crash? ==>
          && Persists(a.during) && a.during.v == a.v && Possible(s, a.during)
          && HandledAt(s, a.during).Some? && LogOk(HandledAt(s, a.during).value.log)
          && LogOk(a.left.log) && Recoverable(s.disk[a.v], HandledAt(s, a.during).value, a.left))
  }

  /** The one delivery that needs care. */
  predicate Orderly(s: Cluster, a: Action)
    requires Possible(s, a)
  {
    match a
    case Deliver(v, m) => Installable(s.nodes[v], m)
    case Crash(v, during, _) => during.Deliver? ==> Installable(s.nodes[v], during.m)
    case _ => true
  }

  predicate Enabled(s: Cluster, a: Action) { Possible(s, a) && Orderly(s, a) }

  function HandledAt(s: Cluster, a: Action): Option<Node>
    requires Formed(s) && a.v in s.nodes && Persists(a) && (a.Deliver? ==> a.m in s.net)
  {
    Handled(s.nodes[a.v], a, s.nextReadCtx[a.v])
  }

  function Reopened(s: Cluster, v: Id, d: Durable, c: Core): Cluster
    requires v in s.nodes && LogOk(d.log)
  {
    s.(nodes := s.nodes[v := Restarted(v, s.nodes[v].peers, d)],
       disk := s.disk[v := d],
       nextReadCtx := s.nextReadCtx[v := 1],
       core := c)
  }

  /** A handler ran, its Persist completed, and its messages are out. */
  function Done(s: Cluster, a: Action, r: Node): Cluster
    requires Formed(s) && a.v in s.nodes && LogOk(r.log)
  {
    s.(nodes := s.nodes[a.v := Advance(r)],
       disk := s.disk[a.v := DurableOf(r)],
       net := s.net + (set m | m in r.msgs),
       nextReadCtx := if a.Read? then s.nextReadCtx[a.v := s.nextReadCtx[a.v] + 1] else s.nextReadCtx,
       core := History(s.core, s.nodes[a.v], r, a))
  }

  /** The cluster after an action.  A handler that panics brings its process down. */
  function After(s: Cluster, a: Action): Cluster
    requires Possible(s, a)
  {
    var n := s.nodes[a.v];
    match a
    case Restart(v) => Reopened(s, v, s.disk[v], s.core)
    case Compact(v, index, data) =>
      if CompactPanics(n, index) then Reopened(s, v, s.disk[v], s.core)
      else s.(nodes := s.nodes[v := AfterCompact(n, index, data)])
    case Crash(v, during, left) =>
      assert Possible(s, during);
      Reopened(s, v, left, HistCrash(s.core, n, HandledAt(s, during).value, during, s.disk[v], left))
    case _ =>
      HandledLogOk(n, a, s.nextReadCtx[a.v]);
      match HandledAt(s, a)
      case None => Reopened(s, a.v, s.disk[a.v], s.core)
      case Some(r) => Done(s, a, r)
  }

  // -------------------------------------------------- handleAppendEntries, case by case

  function MergedNode(n: Node, m: Message): Node
    requires LogOk(n.log) && m.body.AppendEntries? && EntriesOk(m.body.prevIndex, m.body.entries) && m.body.prevIndex <= LastIndex(n.log)
    requires Merge(n.log, n.unstableIndex, m.body.prevIndex, m.body.entries).Some?
  {
    var (log, unstable) := Merge(n.log, n.unstableIndex, m.body.prevIndex, m.body.entries).value;
    n.(log := log, unstableIndex := unstable,
       commitIndex := if m.body.commit > n.commitIndex then Min(m.body.commit, LastIndex(log)) else n.commitIndex)
  }

  lemma AppendAnswer(n: Node, m: Message)
    requires LogOk(n.log) && m.body.AppendEntries? && EntriesOk(m.body.prevIndex, m.body.entries) && m.term >= n.currentTerm
    ensures var f := BecomeFollower(n, m.term).(leaderId := m.from);
            && (!Accepts(n, m) ==> AfterAppend(n, m) == Some(Send(f, m.from, AppendEntriesResponse(false, 0, m.body.readCtx))))
            && (Accepts(n, m) && AfterAppend(n, m).Some? ==>
                  && Merge(f.log, f.unstableIndex, m.body.prevIndex, m.body.entries).Some?
                  && AfterAppend(n, m) == Some(Send(MergedNode(f, m), m.from,
                       AppendEntriesResponse(true, m.body.prevIndex + |m.body.entries|, m.body.readCtx))))
  {
    hide Merge;
  }

  lemma StaleAnswer(n: Node, m: Message)
    requires LogOk(n.log) && m.body.AppendEntries? && EntriesOk(m.body.prevIndex, m.body.entries) && m.term < n.currentTerm
    ensures AfterAppend(n, m) == Some(Send(n, m.from, AppendEntriesResponse(false, 0, 0)))
  {
  }

  function InstalledNode(n: Node, m: Message): Node
    requires m.body.InstallSnapshot?
  {
    var s := m.body.snap;
    n.(log := [Entry(s.lastTerm, s.lastIndex, [])],
       commitIndex := if s.lastIndex > n.commitIndex then s.lastIndex else n.commitIndex,
       unstableIndex := s.lastIndex + 1,
       snapshot := s,
       toApply := Some(s))
  }

  lemma InstallAnswer(n: Node, m: Message)
    requires LogOk(n.log) && m.body.InstallSnapshot?
    ensures var f := BecomeFollower(n, m.term).(leaderId := m.from);
            AfterInstall(n, m)
            == if m.term < n.currentTerm then Send(n, m.from, InstallSnapshotResponse(Base(n.log)))
               else if m.body.snap.lastIndex <= Base(n.log) then Send(f, m.from, InstallSnapshotResponse(Base(n.log)))
               else Send(InstalledNode(f, m), m.from, InstallSnapshotResponse(m.body.snap.lastIndex))
  {
    hide LogOk;
    if m.term >= n.currentTerm {
      var f := BecomeFollower(n, m.term).(leaderId := m.from);
      assert f.log == n.log;
      if m.body.snap.lastIndex > Base(n.log) {
        assert AfterInstall(n, m) == Send(InstalledNode(f, m), m.from, InstallSnapshotResponse(m.body.snap.lastIndex));
      }
    }
  }

  // ----------------------------------------------------- handlers keep logs well formed

  lemma SendAppendsSame(n: Node, to: seq<Id>, ctx: nat)
    requires LogOk(n.log)
    ensures var r := SendAppends(n, to, ctx); r == n.(msgs := r.msgs, sentIndex := r.sentIndex)
    decreases |to|
  {
    if to != [] { SendAppendsSame(SendAppend(n, to[0], ctx), to[1..], ctx); }
  }

  lemma BroadcastSame(n: Node, to: seq<Id>, body: Body)
    ensures Broadcast(n, to, body) == n.(msgs := Broadcast(n, to, body).msgs)
    decreases |to|
  {
    if to != [] { BroadcastSame(Send(n, to[0], body), to[1..], body); }
  }

  lemma CandidateLog(n: Node)
    requires LogOk(n.log)
    ensures BecomeCandidate(n).log == n.log && BecomePreCandidate(n).log == n.log
  {
    forall c: Node, body: Body ensures Broadcast(c, n.peers, body).log == c.log { BroadcastSame(c, n.peers, body); }
  }

  lemma AppendLogOk(n: Node, m: Message)
    requires LogOk(n.log) && m.body.AppendEntries? && EntriesOk(m.body.prevIndex, m.body.entries)
    ensures AfterAppend(n, m).Some? ==> LogOk(AfterAppend(n, m).value.log)
  {
    hide Merge, TermIn;
  }

  lemma AnswerLogs(n: Node, m: Message)
    requires LogOk(n.log)
    ensures m.body.AppendEntriesResponse? ==> AfterAppendResponse(n, m).log == n.log
    ensures m.body.InstallSnapshotResponse? ==> AfterInstallResponse(n, m).log == n.log
    ensures m.body.PreVoteResponse? ==> AfterPreVoteResponse(n, m).log == n.log
    ensures m.body.RequestVoteResponse? ==> AfterRequestVoteResponse(n, m).log == n.log
  {
    hide BecomeCandidate, CommitUpTo, EntriesIn, TermIn, LogUpToDate, AckRead, HasMajority;
    match m.body
    case PreVoteResponse(_) => CandidateLog(n.(preVotesReceived := n.preVotesReceived + {m.from}));
    case AppendEntriesResponse(_, _, ctx) => AckReadFields(n, ctx, m.from);
    case _ =>
  }

  lemma StepLogOk(n: Node, m: Message)
    requires LogOk(n.log) && (m.body.AppendEntries? ==> EntriesOk(m.body.prevIndex, m.body.entries))
    ensures AfterStep(n, m).Some? ==> LogOk(AfterStep(n, m).value.log)
  {
    hide AfterAppend, AfterAppendResponse, AfterInstallResponse, AfterPreVoteResponse, AfterRequestVoteResponse, LogUpToDate;
    AnswerLogs(n, m);
    if m.body.AppendEntries? { AppendLogOk(n, m); }
  }

  /** Counting a confirmation touches the reads only. */
  lemma AckReadFields(n: Node, ctx: nat, p: Id)
    ensures var r := AckRead(n, ctx, p); r == n.(pendingReads := r.pendingReads, readStates := r.readStates)
  {
  }

  lemma HandledLogOk(n: Node, a: Action, ctx: nat)
    requires LogOk(n.log) && Persists(a)
    requires a.Deliver? && a.m.body.AppendEntries? ==> EntriesOk(a.m.body.prevIndex, a.m.body.entries)
    ensures Handled(n, a, ctx).Some? ==> LogOk(Handled(n, a, ctx).value.log)
  {
    hide AfterStep, BecomePreCandidate, CommitUpTo, SendAppend;
    match a
    case Timeout(_) => CandidateLog(n);
    case Deliver(_, m) => StepLogOk(n, m);
    case _ =>
  }

  lemma NewLogOk(log: seq<Entry>, term: nat, datas: seq<Bytes>)
    requires LogOk(log)
    ensures LogOk(log + NewEntries(term, LastIndex(log) + 1, datas))
  {
  }

  lemma ReopenedCore(s: Cluster, v: Id, e: Durable, c: Core)
    requires v in s.nodes && LogOk(e.log)
    ensures Reopened(s, v, e, c).core == c
  {
  }
}
