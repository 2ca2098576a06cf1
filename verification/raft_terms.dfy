/**
 * Terms over every possible run: term 0 goes with index 0, and with nothing else.
 */
module RaftTerms {
  import opened Bytes
  import opened RaftTypes
  import opened RaftNode
  import opened RaftCluster
  import opened RaftSteps
  import opened RaftRuns
  import opened RaftStable
  import opened RaftPolls
  import opened RaftLinkSteps
  import opened RaftLinks

  predicate Timed(term: nat, index: nat) { term == 0 <==> index == 0 }

  predicate TimedLog(log: seq<Entry>) { forall j :: 0 <= j < |log| ==> Timed(log[j].term, log[j].index) }

  predicate TimedMsg(m: Message) {
    && (m.body.AppendEntries? && m.body.entries != [] ==> Timed(m.body.prevTerm, m.body.prevIndex) && TimedLog(m.body.entries))
    && (m.body.InstallSnapshot? ==> Timed(m.body.snap.lastTerm, m.body.snap.lastIndex))
  }

  /** No one stands for term 0. */
  predicate Ranked(n: Node) { n.role == Candidate || n.role == Leader ==> n.currentTerm > 0 }

  predicate TimedCluster(s: Cluster) {
    && (forall v :: v in s.nodes ==> TimedLog(s.nodes[v].log) && Ranked(s.nodes[v]))
    && (forall v :: v in s.disk ==> TimedLog(s.disk[v].log))
    && forall m :: m in s.net ==> TimedMsg(m)
  }

  // ----------------------------------------------------------------------- handlers

  lemma CandidateRanked(n: Node)
    requires LogOk(n.log)
    ensures Ranked(BecomeCandidate(n)) && Ranked(BecomePreCandidate(n))
  {
    forall c: Node, body: Body ensures Broadcast(c, n.peers, body) == c.(msgs := Broadcast(c, n.peers, body).msgs) { BroadcastSame(c, n.peers, body); }
  }

  lemma LeaderRanked(n: Node)
    requires LogOk(n.log) && n.currentTerm > 0
    ensures Ranked(BecomeLeader(n))
  {
    hide CommitUpTo;
    var l := n.(role := Leader, leaderId := n.id, nextIndex := InitialNext(n.peers, LastIndex(n.log) + 1),
                matchIndex := InitialNext(n.peers, 0), sentIndex := map[], pendingReads := map[]);
    SendAppendsSame(l, n.peers, 0);
  }

  lemma StepRanked(n: Node, m: Message)
    requires LogOk(n.log) && Ranked(n) && (m.body.AppendEntries? ==> EntriesOk(m.body.prevIndex, m.body.entries))
    ensures AfterStep(n, m).Some? ==> Ranked(AfterStep(n, m).value)
  {
    hide AfterAppend, AfterInstall, AfterAppendResponse, AfterInstallResponse, BecomeCandidate, BecomeLeader, LogUpToDate, HasMajority, LogOk;
    match m.body
    case PreVoteResponse(_) => CandidateRanked(n.(preVotesReceived := n.preVotesReceived + {m.from}));
    case RequestVoteResponse(_) => if n.role == Candidate { LeaderRanked(n.(votesReceived := n.votesReceived + {m.from})); }
    case AppendEntries(_, _, _, _, _) => AppendRanked(n, m);
    case InstallSnapshot(_) => InstallAnswer(n, m);
    case AppendEntriesResponse(_, _, ctx) => ResponseRanked(n, m);
    case InstallSnapshotResponse(_) => ResponseRanked(n, m);
    case _ =>
  }

  lemma AppendRanked(n: Node, m: Message)
    requires LogOk(n.log) && Ranked(n) && m.body.AppendEntries? && EntriesOk(m.body.prevIndex, m.body.entries)
    ensures AfterAppend(n, m).Some? ==> Ranked(AfterAppend(n, m).value)
  {
    hide LogOk, Merge, TermIn;
  }

  lemma ResponseRanked(n: Node, m: Message)
    requires LogOk(n.log) && Ranked(n)
    ensures m.body.AppendEntriesResponse? ==> Ranked(AfterAppendResponse(n, m))
    ensures m.body.InstallSnapshotResponse? ==> Ranked(AfterInstallResponse(n, m))
  {
    hide LogOk, CommitUpTo, EntriesIn, TermIn, AckRead;
    if m.body.AppendEntriesResponse? { AckReadFields(n, m.body.readCtx, m.from); }
  }

  lemma HandledRanked(n: Node, a: Action, ctx: nat)
    requires LogOk(n.log) && Persists(a) && Ranked(n)
    requires a.Deliver? && a.m.body.AppendEntries? ==> EntriesOk(a.m.body.prevIndex, a.m.body.entries)
    ensures Handled(n, a, ctx).Some? ==> Ranked(Handled(n, a, ctx).value)
  {
    hide AfterStep, BecomePreCandidate, CommitUpTo, LogOk;
    match a
    case Timeout(_) => CandidateRanked(n);
    case Heartbeat(_) => SendAppendsSame(n, n.peers, 0);
    case Propose(_, datas) =>
      NewLogOk(n.log, n.currentTerm, datas);
      SendAppendsSame(n.(log := n.log + NewEntries(n.currentTerm, LastIndex(n.log) + 1, datas)), n.peers, 0);
    case Read(_) => SendAppendsSame(n.(pendingReads := n.pendingReads[ctx := PendingRead(n.commitIndex, {n.id})]), n.peers, ctx);
    case Deliver(_, m) => StepRanked(n, m);
  }

  lemma LinkTimed(n: Node, r: Node, a: Action, j: nat)
    requires LinkStep(n, r, a) && TimedLog(n.log) && Ranked(n) && (a.Deliver? ==> TimedMsg(a.m)) && j < |r.log|
    ensures Timed(r.log[j].term, r.log[j].index)
  {
    if j > 0 { assert Linked(r.log, LinkAt(r.log, j)); }
  }

  lemma StepTimed(n: Node, r: Node, a: Action)
    requires LinkStep(n, r, a) && TimedLog(n.log) && Ranked(n) && (a.Deliver? ==> TimedMsg(a.m))
    ensures TimedLog(r.log)
  {
    hide LinkStep, TimedMsg, Ranked;
    forall j | 0 <= j < |r.log| ensures Timed(r.log[j].term, r.log[j].index) { LinkTimed(n, r, a, j); }
  }

  lemma OutTimed(r: Node)
    requires LogOk(r.log) && OutFrom(r) && TimedLog(r.log) && AtBoundary(r.log, r.snapshot)
    ensures forall m :: m in r.msgs ==> TimedMsg(m)
  {
  }

  lemma CompactTimed(n: Node, index: nat, data: Bytes)
    requires LogOk(n.log) && !CompactPanics(n, index) && TimedLog(n.log) && Ranked(n)
    ensures TimedLog(AfterCompact(n, index, data).log) && Ranked(AfterCompact(n, index, data))
  {
    if index <= n.commitIndex && index > Base(n.log) {
      assert n.log[index - Base(n.log)].index == index;
    }
  }

  // ------------------------------------------------------------------------ clusters

  lemma HandledTimed(s: Cluster, a: Action, r: Node)
    requires Possible(s, a) && Persists(a) && HandledAt(s, a) == Some(r) && TimedCluster(s) && Polled(s)
    ensures LinkStep(s.nodes[a.v], r, a) && TimedLog(r.log) && Ranked(r)
  {
    hide Polled, Handled, LinkStep, TimedLog, TimedMsg, Ranked;
    HandledOccurs(s, a, r, Link(0, Entry(0, 0, [])));
    HandledRanked(s.nodes[a.v], a, s.nextReadCtx[a.v]);
    StepTimed(s.nodes[a.v], r, a);
  }

  lemma ReopenedTimed(s: Cluster, v: Id, d: Durable, t: Cluster)
    requires TimedCluster(s) && v in s.nodes && LogOk(d.log) && TimedLog(d.log) && t == Reopened(s, v, d, t.core)
    ensures TimedCluster(t)
  {
    hide TimedLog, TimedMsg;
  }

  lemma DoneTimed(s: Cluster, a: Action, r: Node)
    requires Formed(s) && a.v in s.nodes && LogOk(r.log) && OutFrom(r) && TimedLog(r.log) && Ranked(r) && AtBoundary(r.log, r.snapshot)
    requires TimedCluster(s)
    ensures TimedCluster(Done(s, a, r))
  {
    hide TimedLog, TimedMsg, History, OutFrom;
    OutTimed(r);
  }

  lemma LeftTimed(s: Cluster, a: Action, r: Node)
    requires Possible(s, a) && a.Crash? && Possible(s, a.during) && HandledAt(s, a.during) == Some(r) && TimedLog(r.log) && TimedCluster(s) && Polled(s)
    ensures TimedLog(a.left.log)
  {
    hide Polled, NodePolled, DiskPolled, MsgPolled, Polls, Handled, Recoverable, Tracked, Synced;
    PolledNode(s, a.v);
    if a.left != s.disk[a.v] && a.left != DurableOf(r) {
      DiskSound(s.nodes[a.v], s.disk[a.v]);
      PolledLog(s.core, s.nodes[a.v], a.v);
      DiskTracks(s.nodes[a.v], s.disk[a.v], a.during, s.nextReadCtx[a.v]);
      TornLeaves(s.nodes[a.v], s.disk[a.v], r, a.left);
    }
  }

  lemma DoneBoundary(s: Cluster, a: Action, r: Node)
    requires Possible(s, a) && Persists(a) && HandledAt(s, a) == Some(r) && Polled(After(s, a)) && LogOk(r.log)
    ensures AtBoundary(r.log, r.snapshot)
  {
    hide Polled, NodePolled, MsgPolled, Polls, Handled, History;
    PolledNode(After(s, a), a.v);
  }

  lemma TimedStep(s: Cluster, a: Action)
    requires Possible(s, a) && TimedCluster(s) && Polled(s)
    ensures TimedCluster(After(s, a))
  {
    hide Polled, Handled, TimedLog, TimedMsg, Ranked, LinkStep, History, HistCrash, Recoverable, Moves;
    match a
    case Restart(v) => ReopenedTimed(s, v, s.disk[v], After(s, a));
    case Compact(v, index, data) =>
      if CompactPanics(s.nodes[v], index) { ReopenedTimed(s, v, s.disk[v], After(s, a)); } else { CompactTimed(s.nodes[v], index, data); }
    case Crash(v, during, left) =>
      assert Possible(s, during);
      HandledTimed(s, during, HandledAt(s, during).value);
      LeftTimed(s, a, HandledAt(s, during).value);
      ReopenedTimed(s, v, left, After(s, a));
    case _ =>
      HandledLogOk(s.nodes[a.v], a, s.nextReadCtx[a.v]);
      if HandledAt(s, a).None? {
        ReopenedTimed(s, a.v, s.disk[a.v], After(s, a));
      } else {
        var r := HandledAt(s, a).value;
        HandledTimed(s, a, r);
        LinkStepOut(s.nodes[a.v], r, a);
        PolledStep(s, a);
        DoneBoundary(s, a, r);
        DoneTimed(s, a, r);
      }
  }

  lemma {:induction false} RunTimed(states: seq<Cluster>, actions: seq<Action>, i: nat)
    requires PossibleRun(states, actions) && i < |states|
    ensures TimedCluster(states[i])
  {
    hide PossibleRun, Polled, Possible, After;
    PossibleStart(states, actions);
    if i == 0 {
      InitialTimed(states[0]);
    } else {
      RunTimed(states, actions, i - 1);
      RunPolled(states, actions, i - 1);
      PossibleStep(states, actions, i - 1);
      TimedStep(states[i - 1], actions[i - 1]);
    }
  }

  lemma InitialTimed(s: Cluster)
    requires Initial(s)
    ensures TimedCluster(s)
  {
    hide Unwritten, Wired;
  }
}
