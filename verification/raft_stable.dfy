/** How handlers mark what is not yet durable, and what Persist must write. */
module RaftStable {
  import opened Bytes
  import opened RaftTypes
  import opened RaftNode
  import opened RaftSteps

  /** Between steps: the disk holds the node, up to a compaction still to be written. */
  ghost predicate Synced(n: Node, d: Durable) {
    && LogOk(n.log) && n.unstableIndex == LastIndex(n.log) + 1 && n.snapshot.lastIndex == Base(n.log) && AtBoundary(n.log, n.snapshot)
    && n.stableTerm == n.currentTerm && n.stableVote == n.votedFor
    && d.snapshot.lastIndex == n.stableSnapshotIndex <= n.snapshot.lastIndex
    && (!SnapshotPending(n) ==> d == DurableOf(n))
    && (n.snapshot.lastIndex == 0 ==> n.snapshot == NoSnapshot)
    && (d.snapshot.lastIndex == 0 ==> d.snapshot == NoSnapshot) && AtBoundary(d.log, d.snapshot)
  }

  /** The sentinel is the snapshot boundary. */
  predicate AtBoundary(log: seq<Entry>, snap: Snapshot) {
    |log| > 0 && log[0] == Entry(snap.lastTerm, snap.lastIndex, [])
  }

  predicate SameMarks(n: Node, r: Node) {
    r.stableTerm == n.stableTerm && r.stableVote == n.stableVote && r.stableSnapshotIndex == n.stableSnapshotIndex
  }

  predicate SameLog(n: Node, r: Node) {
    SameMarks(n, r) && r.log == n.log && r.snapshot == n.snapshot && r.unstableIndex == n.unstableIndex
  }

  /** The log changed from the unstable index on, which lies inside it. */
  predicate Rewrote(n: Node, r: Node)
    requires LogOk(n.log) && LogOk(r.log)
  {
    && SameMarks(n, r) && r.snapshot == n.snapshot && r.log[0] == n.log[0]
    && Base(n.log) < r.unstableIndex <= LastIndex(r.log) && r.unstableIndex <= LastIndex(n.log) + 1
    && r.log[..r.unstableIndex - Base(n.log)] == n.log[..r.unstableIndex - Base(n.log)]
  }

  predicate Installed(n: Node, r: Node)
    requires LogOk(r.log)
  {
    SameMarks(n, r) && r.snapshot.lastIndex > n.snapshot.lastIndex && r.unstableIndex == LastIndex(r.log) + 1
    && r.snapshot.lastIndex == Base(r.log) && AtBoundary(r.log, r.snapshot)
  }

  ghost predicate Tracked(n: Node, r: Node) {
    LogOk(n.log) && LogOk(r.log) && (SameLog(n, r) || Rewrote(n, r) || Installed(n, r))
  }

  lemma CandidateSame(n: Node)
    requires LogOk(n.log)
    ensures SameLog(n, BecomeCandidate(n)) && SameLog(n, BecomePreCandidate(n))
  {
    hide LogOk, CommitUpTo;
    forall c: Node, body: Body
      ensures SameLog(c, Broadcast(c, n.peers, body))
    {
      BroadcastSame(c, n.peers, body);
    }
  }

  lemma LeaderSame(n: Node)
    requires LogOk(n.log)
    ensures SameLog(n, BecomeLeader(n))
  {
    var l := n.(role := Leader, leaderId := n.id,
                nextIndex := InitialNext(n.peers, LastIndex(n.log) + 1),
                matchIndex := InitialNext(n.peers, 0),
                sentIndex := map[], pendingReads := map[]);
    SendAppendsSame(l, n.peers, 0);
  }

  lemma MergedTracked(n: Node, m: Message)
    requires LogOk(n.log) && n.unstableIndex == LastIndex(n.log) + 1
    requires m.body.AppendEntries? && EntriesOk(m.body.prevIndex, m.body.entries) && m.body.prevIndex <= LastIndex(n.log)
    requires Merge(n.log, n.unstableIndex, m.body.prevIndex, m.body.entries).Some?
    ensures Tracked(n, MergedNode(n, m))
  {
    hide AgreeLen, Merge, TermIn;
    var p, es := m.body.prevIndex, m.body.entries;
    if AgreeLen(n.log, p + 1, es) < |es| {
      MergeTracked(n.log, n.unstableIndex, p, es);
    } else {
      MergeNothing(n.log, n.unstableIndex, p, es);
    }
  }

  lemma TrackedSame(n: Node, f: Node, g: Node, r: Node)
    requires LogOk(n.log) && SameLog(n, f) && Tracked(f, g) && SameLog(g, r)
    ensures Tracked(n, r)
  {
  }

  lemma AppendTracked(n: Node, m: Message)
    requires LogOk(n.log) && n.unstableIndex == LastIndex(n.log) + 1
    requires m.body.AppendEntries? && EntriesOk(m.body.prevIndex, m.body.entries) && AfterAppend(n, m).Some?
    ensures Tracked(n, AfterAppend(n, m).value)
  {
    hide AfterAppend, LogOk, Merge, TermIn, Tracked;
    if m.term < n.currentTerm {
      StaleAnswer(n, m);
      SameTracked(n, AfterAppend(n, m).value);
    } else {
      AppendAnswer(n, m);
      var f, r := BecomeFollower(n, m.term).(leaderId := m.from), AfterAppend(n, m).value;
      if Accepts(n, m) {
        MergedTracked(f, m);
        TrackedSame(n, f, MergedNode(f, m), r);
      } else {
        SameTracked(n, r);
      }
    }
  }

  lemma SameTracked(n: Node, r: Node)
    requires LogOk(n.log) && SameLog(n, r)
    ensures Tracked(n, r)
  {
  }

  lemma MergeNothing(log: seq<Entry>, unstable: nat, p: nat, es: seq<Entry>)
    requires LogOk(log) && EntriesOk(p, es) && p <= LastIndex(log) && AgreeLen(log, p + 1, es) == |es|
    ensures Merge(log, unstable, p, es) == Some((log, unstable))
  {
  }

  lemma MergeTracked(log: seq<Entry>, unstable: nat, p: nat, es: seq<Entry>)
    requires LogOk(log) && unstable == LastIndex(log) + 1 && EntriesOk(p, es) && p <= LastIndex(log)
    requires Merge(log, unstable, p, es).Some? && AgreeLen(log, p + 1, es) < |es|
    ensures var (l, f) := Merge(log, unstable, p, es).value;
            && l[0] == log[0] && Base(log) < f <= LastIndex(l) && f <= LastIndex(log) + 1
            && l[..f - Base(log)] == log[..f - Base(log)]
  {
    hide AgreeLen;
    var k := AgreeLen(log, p + 1, es);
    if k > 0 { assert HasTerm(log, p + 1 + (k - 1), es[k - 1].term); }
  }

  lemma InstallTracked(n: Node, m: Message)
    requires LogOk(n.log) && n.snapshot.lastIndex == Base(n.log) && m.body.InstallSnapshot?
    ensures Tracked(n, AfterInstall(n, m)) && (SameLog(n, AfterInstall(n, m)) || Installed(n, AfterInstall(n, m)))
  {
    hide AfterInstall, Rewrote;
    InstallAnswer(n, m);
  }

  lemma VoteSame(n: Node, m: Message)
    requires LogOk(n.log)
    ensures m.body.RequestVote? ==> SameLog(n, AfterRequestVote(n, m))
    ensures m.body.RequestVoteResponse? ==> SameLog(n, AfterRequestVoteResponse(n, m))
    ensures m.body.PreVoteResponse? ==> SameLog(n, AfterPreVoteResponse(n, m))
  {
    hide BecomeCandidate, BecomeLeader, LogUpToDate, HasMajority, LogOk;
    LeaderSame(n.(votesReceived := n.votesReceived + {m.from}));
    CandidateSame(n.(preVotesReceived := n.preVotesReceived + {m.from}));
  }

  lemma StepTracked(n: Node, m: Message)
    requires LogOk(n.log) && n.unstableIndex == LastIndex(n.log) + 1 && n.snapshot.lastIndex == Base(n.log)
    requires m.body.AppendEntries? ==> EntriesOk(m.body.prevIndex, m.body.entries)
    ensures AfterStep(n, m).Some? ==> Tracked(n, AfterStep(n, m).value)
    ensures AfterStep(n, m).Some? && !m.body.AppendEntries? ==> SameLog(n, AfterStep(n, m).value) || Installed(n, AfterStep(n, m).value)
  {
    hide AfterAppend, AfterInstall, AfterAppendResponse, AfterPreVote, AfterPreVoteResponse, AfterRequestVote,
         AfterRequestVoteResponse, AfterInstallResponse, LogOk;
    match m.body
    case PreVote(_, _) => PreVoteSame(n, m);
    case AppendEntries(_, _, _, _, _) => if AfterAppend(n, m).Some? { AppendTracked(n, m); }
    case AppendEntriesResponse(_, _, _) => AppendResponseSame(n, m);
    case InstallSnapshot(_) => InstallTracked(n, m);
    case InstallSnapshotResponse(_) => InstallResponseSame(n, m);
    case _ => VoteSame(n, m);
  }

  lemma InstallResponseSame(n: Node, m: Message)
    requires LogOk(n.log) && m.body.InstallSnapshotResponse?
    ensures SameLog(n, AfterInstallResponse(n, m))
  {
    hide CommitUpTo;
  }

  lemma PreVoteSame(n: Node, m: Message)
    requires LogOk(n.log) && m.body.PreVote?
    ensures SameLog(n, AfterPreVote(n, m))
  {
  }

  lemma AppendResponseSame(n: Node, m: Message)
    requires LogOk(n.log) && m.body.AppendEntriesResponse?
    ensures SameLog(n, AfterAppendResponse(n, m))
  {
    hide AckRead, CommitUpTo, EntriesIn, TermIn;
    AckReadFields(n, m.body.readCtx, m.from);
  }

  lemma ProposeFacts(n: Node, datas: seq<Bytes>)
    requires LogOk(n.log) && n.unstableIndex == LastIndex(n.log) + 1
    ensures var r := AfterPropose(n, datas);
            && SameMarks(n, r) && r.snapshot == n.snapshot && r.currentTerm == n.currentTerm && r.votedFor == n.votedFor
            && r.unstableIndex == n.unstableIndex
            && (n.role == Leader ==> r.log == n.log + NewEntries(n.currentTerm, LastIndex(n.log) + 1, datas))
            && (n.role != Leader ==> r.log == n.log)
  {
    hide SendAppends, CommitUpTo;
    if n.role == Leader {
      SendAppendsSame(n.(log := n.log + NewEntries(n.currentTerm, LastIndex(n.log) + 1, datas)), n.peers, 0);
    }
  }

  lemma ProposeTracked(n: Node, datas: seq<Bytes>)
    requires LogOk(n.log) && n.unstableIndex == LastIndex(n.log) + 1
    ensures Tracked(n, AfterPropose(n, datas))
  {
    hide AfterPropose;
    ProposeFacts(n, datas);
    if n.role == Leader {
      var es := NewEntries(n.currentTerm, LastIndex(n.log) + 1, datas);
      var r := AfterPropose(n, datas);
      assert LogOk(n.log + es);
      assert r.log[..|n.log|] == n.log[..|n.log|];
      assert es == [] ==> r.log == n.log;
    }
  }

  lemma ReadSame(n: Node, ctx: nat)
    requires LogOk(n.log)
    ensures SameLog(n, AfterReadRequest(n, ctx)) && SameLog(n, AfterHeartbeat(n))
  {
    SendAppendsSame(n, n.peers, 0);
    SendAppendsSame(n.(pendingReads := n.pendingReads[ctx := PendingRead(n.commitIndex, {n.id})]), n.peers, ctx);
  }

  lemma HandledTracked(n: Node, a: Action, ctx: nat)
    requires LogOk(n.log) && n.unstableIndex == LastIndex(n.log) + 1 && n.snapshot.lastIndex == Base(n.log) && Persists(a)
    requires a.Deliver? && a.m.body.AppendEntries? ==> EntriesOk(a.m.body.prevIndex, a.m.body.entries)
    ensures Handled(n, a, ctx).Some? ==> Tracked(n, Handled(n, a, ctx).value)
    ensures Handled(n, a, ctx).Some? && !a.Propose? && !(a.Deliver? && a.m.body.AppendEntries?) ==>
              SameLog(n, Handled(n, a, ctx).value) || Installed(n, Handled(n, a, ctx).value)
  {
    hide AfterStep, BecomePreCandidate, AfterHeartbeat, AfterPropose, AfterReadRequest, LogOk;
    match a
    case Timeout(_) => CandidateSame(n);
    case Heartbeat(_) => ReadSame(n, ctx);
    case Read(_) => ReadSame(n, ctx);
    case Propose(_, datas) => ProposeTracked(n, datas);
    case Deliver(_, m) => StepTracked(n, m);
  }

  /** What Persist writes when it appends: it makes the disk equal to the node. */
  lemma PersistExact(n: Node, d: Durable, r: Node)
    requires Synced(n, d) && Tracked(n, r) && !SnapshotPending(r)
    ensures Durable(r.currentTerm, r.votedFor,
                    if Unstable(r) == [] then d.log else Below(d.log, r.unstableIndex) + Unstable(r), d.snapshot) == DurableOf(r)
    ensures Unstable(r) == [] <==> r.log == n.log && r.unstableIndex == LastIndex(r.log) + 1
  {
    if Rewrote(n, r) {
      var f := r.unstableIndex - Base(n.log);
      assert r.log == r.log[..f] + r.log[f..];
      assert Below(d.log, r.unstableIndex) == n.log[..f];
    }
  }

  lemma DoneSynced(n: Node, d: Durable, r: Node)
    requires Synced(n, d) && Tracked(n, r)
    ensures Synced(Advance(r), DurableOf(r))
  {
  }

  lemma CompactSynced(n: Node, d: Durable, index: nat, data: Bytes)
    requires Synced(n, d) && !CompactPanics(n, index)
    ensures Synced(AfterCompact(n, index, data), d)
  {
  }

  lemma RestartSynced(id: Id, peers: seq<Id>, d: Durable)
    requires LogOk(d.log) && d.snapshot.lastIndex == Base(d.log) && (d.snapshot.lastIndex == 0 ==> d.snapshot == NoSnapshot)
    requires AtBoundary(d.log, d.snapshot)
    ensures Synced(Restarted(id, peers, d), d)
  {
  }

  // ------------------------------------------------------- what a crash inside Persist leaves

  lemma AppendMarks(n: Node, m: Message)
    requires LogOk(n.log) && n.unstableIndex == LastIndex(n.log) + 1
    requires m.body.AppendEntries? && EntriesOk(m.body.prevIndex, m.body.entries) && AfterAppend(n, m).Some?
    ensures var r := AfterAppend(n, m).value; SameMarks(n, r) && r.snapshot == n.snapshot
  {
    hide Merge, TermIn;
  }

  lemma ProposedUnstable(n: Node, r: Node, es: seq<Entry>)
    requires LogOk(n.log) && LogOk(r.log) && r.log == n.log + es && r.unstableIndex == LastIndex(n.log) + 1
    ensures Unstable(r) == es && Below(n.log, r.unstableIndex) == n.log
  {
  }

  lemma AppendHardState(n: Node, m: Message)
    requires LogOk(n.log) && m.body.AppendEntries? && EntriesOk(m.body.prevIndex, m.body.entries) && AfterAppend(n, m).Some?
    ensures var r := AfterAppend(n, m).value;
            if m.term < n.currentTerm then r.currentTerm == n.currentTerm && r.votedFor == n.votedFor
            else r.currentTerm == m.term && r.votedFor == BecomeFollower(n, m.term).votedFor
  {
    hide Merge, TermIn;
  }

  /** What is left in doubt once the two ends are set apart. */
  lemma CrashBetween(n: Node, d: Durable, r: Node, e: Durable)
    requires Synced(n, d) && Tracked(n, r) && LogOk(d.log) && Recoverable(d, r, e) && e != d && e != DurableOf(r)
    ensures !SnapshotPending(r) && r.snapshot == n.snapshot && d == DurableOf(n) && !SnapshotPending(n)
    ensures e == d.(term := r.currentTerm, vote := r.votedFor) || (Unstable(r) != [] && TornEntries(d, r, e))
    ensures Rewrote(n, r)
  {
    hide TornEntries;
  }

  lemma HandledPropose(n: Node, b: Action, ctx: nat)
    requires LogOk(n.log) && b.Propose?
    ensures Handled(n, b, ctx) == Some(AfterPropose(n, b.datas))
  {
  }

  lemma HandledAppend(n: Node, b: Action, ctx: nat)
    requires LogOk(n.log) && b.Deliver? && b.m.body.AppendEntries? && EntriesOk(b.m.body.prevIndex, b.m.body.entries) && b.m.to == n.id
    ensures Handled(n, b, ctx) == AfterAppend(n, b.m)
  {
    hide AfterAppend;
  }

  lemma NotBoth(n: Node, r: Node)
    requires LogOk(n.log) && LogOk(r.log) && Rewrote(n, r) && n.unstableIndex == LastIndex(n.log) + 1
    ensures !SameLog(n, r) && !Installed(n, r)
  {
  }

  lemma ProposeUnmoved(n: Node, d: Durable, r: Node, e: Durable)
    requires d == DurableOf(n) && r.currentTerm == n.currentTerm && r.votedFor == n.votedFor
    ensures d.(term := r.currentTerm, vote := r.votedFor) == d
  {
  }

  lemma CrashSameLog(n: Node, d: Durable, r: Node, e: Durable)
    requires LogOk(d.log) && LogOk(r.log) && e.log == d.log
    requires e == d.(term := r.currentTerm, vote := r.votedFor) || TornEntries(d, r, e)
    ensures e == d.(term := r.currentTerm, vote := r.votedFor)
  {
  }

  /** Between the old disk and the new: the new term and vote, over the old log or a cut of the new one. */
  lemma TornLeaves(n: Node, d: Durable, r: Node, e: Durable)
    requires Synced(n, d) && Tracked(n, r) && LogOk(d.log) && Recoverable(d, r, e) && e != d && e != DurableOf(r)
    ensures e.term == r.currentTerm && e.vote == r.votedFor && e.snapshot == d.snapshot && |e.log| > 0 && e.log[0] == d.log[0]
    ensures e.log == d.log || e.log <= r.log
  {
    hide Synced, Tracked, Recoverable;
    CrashBetween(n, d, r, e);
    TrackedLogs(n, r);
    if e != d.(term := r.currentTerm, vote := r.votedFor) {
      var j :| 0 <= j <= |Unstable(r)| &&
               e == Durable(r.currentTerm, r.votedFor, Below(d.log, r.unstableIndex) + Unstable(r)[..j], d.snapshot);
      CutOf(n.log, r.log, r.unstableIndex, j);
    }
  }

  lemma TrackedLogs(n: Node, r: Node)
    requires Tracked(n, r)
    ensures LogOk(n.log) && LogOk(r.log)
  {
  }

  lemma CutOf(was: seq<Entry>, log: seq<Entry>, f: nat, j: nat)
    requires LogOk(was) && LogOk(log) && log[0] == was[0] && Base(was) < f <= LastIndex(log) && f <= LastIndex(was) + 1
    requires log[..f - Base(was)] == was[..f - Base(was)] && j <= |log| - (f - Base(was))
    ensures var e := Below(was, f) + log[f - Base(log)..][..j]; e <= log && |e| > 0 && e[0] == log[0]
  {
    var k := f - Base(was);
    assert Below(was, f) == was[..k];
    assert log[..k] + log[k..][..j] == log[..k + j];
  }
}
