/**
 * Pipelined replication sends each entry once.
 *
 * `sentIndex` runs ahead of `nextIndex`, so a leader need not wait for an
 * acknowledgement before sending what comes next.
 */
module RaftPipelineSteps {
  import opened Bytes
  import opened RaftTypes
  import opened RaftNode
  import opened RaftSteps
  import opened RaftSending

  /** The entries of the AppendEntries to p among the messages, in the order sent. */
  function SentTo(msgs: seq<Message>, p: Id): seq<Entry> {
    if msgs == [] then []
    else
      var m := msgs[|msgs| - 1];
      SentTo(msgs[..|msgs| - 1], p) + if m.to == p && m.body.AppendEntries? then m.body.entries else []
  }

  /** Everything in the log has been sent to p, and p is not behind the snapshot boundary. */
  predicate Caught(n: Node, p: Id) {
    LogOk(n.log) && At(n.sentIndex, p) == LastIndex(n.log)
  }

  predicate InReach(n: Node, p: Id) {
    LogOk(n.log) && Base(n.log) < At(n.nextIndex, p) <= LastIndex(n.log) + 1
  }

  lemma SentToSend(n: Node, q: Id, body: Body, p: Id)
    ensures SentTo(Send(n, q, body).msgs, p) == SentTo(n.msgs, p) + if q == p && body.AppendEntries? then body.entries else []
  {
    var r := Send(n, q, body);
    assert r.msgs[..|r.msgs| - 1] == n.msgs;
  }

  lemma SendAppendSends(n: Node, q: Id, ctx: nat, p: Id)
    requires LogOk(n.log)
    ensures var r := SendAppend(n, q, ctx);
            if q == p && InReach(n, p) && At(n.sentIndex, p) <= LastIndex(n.log) then
              Caught(r, p) && SentTo(r.msgs, p) == SentTo(n.msgs, p) + EntriesIn(n.log, SendFrom(n, p), LastIndex(n.log))
            else q != p ==> SentTo(r.msgs, p) == SentTo(n.msgs, p) && At(r.sentIndex, p) == At(n.sentIndex, p)
  {
    hide TermIn, EntriesIn;
    if Pred(At(n.nextIndex, q)) < Base(n.log) {
      SentToSend(n, q, InstallSnapshot(n.snapshot), p);
    } else {
      var prev := SendFrom(n, q);
      SentToSend(n, q, AppendEntries(prev, TermIn(n.log, prev), EntriesIn(n.log, prev, LastIndex(n.log)), n.commitIndex, ctx), p);
    }
  }

  predicate Distinct(to: seq<Id>) { forall i, j :: 0 <= i < j < |to| ==> to[i] != to[j] }

  lemma SendAppendsOthers(n: Node, to: seq<Id>, ctx: nat, p: Id)
    requires LogOk(n.log) && p !in to
    ensures var r := SendAppends(n, to, ctx); SentTo(r.msgs, p) == SentTo(n.msgs, p) && At(r.sentIndex, p) == At(n.sentIndex, p)
    decreases |to|
  {
    hide SendAppend;
    if to != [] {
      SendAppendSends(n, to[0], ctx, p);
      SendAppendLog(n, to[0], ctx);
      SendAppendsOthers(SendAppend(n, to[0], ctx), to[1..], ctx, p);
    }
  }

  lemma SendAppendLog(n: Node, q: Id, ctx: nat)
    requires LogOk(n.log)
    ensures var r := SendAppend(n, q, ctx); r.log == n.log && r.nextIndex == n.nextIndex
  {
  }

  /** One round to all peers sends p what it has not been sent. */
  lemma SendAppendsSends(n: Node, to: seq<Id>, ctx: nat, p: Id)
    requires LogOk(n.log) && Distinct(to) && p in to && InReach(n, p) && At(n.sentIndex, p) <= LastIndex(n.log)
    ensures var r := SendAppends(n, to, ctx);
            Caught(r, p) && SentTo(r.msgs, p) == SentTo(n.msgs, p) + EntriesIn(n.log, SendFrom(n, p), LastIndex(n.log))
    decreases |to|
  {
    hide SendAppend, EntriesIn;
    var s := SendAppend(n, to[0], ctx);
    SendAppendSends(n, to[0], ctx, p);
    SendAppendLog(n, to[0], ctx);
    if to[0] == p {
      SendAppendsOthers(s, to[1..], ctx, p);
    } else {
      SendAppendsSends(s, to[1..], ctx, p);
    }
  }

  // ------------------------------------------------------------------ one step

  /** A leader that stays leader has sent p exactly what it appended. */
  ghost predicate SentOn(n: Node, r: Node, p: Id) {
    LogOk(n.log) && n.log <= r.log && SentTo(r.msgs, p) == r.log[|n.log|..] && Caught(r, p)
  }

  lemma NothingLeft(log: seq<Entry>)
    requires LogOk(log)
    ensures EntriesIn(log, LastIndex(log), LastIndex(log)) == [] && log[|log|..] == []
  {
  }

  /** A leader that sends nothing to p and leaves the log alone. */
  lemma StillSent(n: Node, r: Node, p: Id)
    requires Caught(n, p) && n.msgs == [] && r.log == n.log && At(r.sentIndex, p) == At(n.sentIndex, p)
    requires SentTo(r.msgs, p) == []
    ensures SentOn(n, r, p)
  {
    NothingLeft(n.log);
  }

  lemma RoundSent(n: Node, ctx: nat, p: Id)
    requires Caught(n, p) && InReach(n, p) && Distinct(n.peers) && p in n.peers && n.msgs == []
    ensures SentOn(n, SendAppends(n, n.peers, ctx), p)
  {
    hide SendAppends, EntriesIn, LogOk;
    SendAppendsSends(n, n.peers, ctx, p);
    SendAppendsSame(n, n.peers, ctx);
    NothingLeft(n.log);
  }

  lemma AppendedTail(log: seq<Entry>, es: seq<Entry>)
    requires LogOk(log) && LogOk(log + es)
    ensures log <= log + es && (log + es)[|log|..] == es
    ensures LastIndex(log) <= LastIndex(log + es) && Base(log + es) == Base(log)
    ensures EntriesIn(log + es, LastIndex(log), LastIndex(log + es)) == es
  {
  }

  lemma ProposeSent(n: Node, datas: seq<Bytes>, p: Id)
    requires n.role == Leader && Caught(n, p) && InReach(n, p) && Distinct(n.peers) && p in n.peers && n.msgs == []
    ensures SentOn(n, AfterPropose(n, datas), p)
  {
    hide SendAppends, EntriesIn, LogOk, LastIndex;
    var es := NewEntries(n.currentTerm, LastIndex(n.log) + 1, datas);
    var q := n.(log := n.log + es);
    NewLogOk(n.log, n.currentTerm, datas);
    AppendedTail(n.log, es);
    SendAppendsSends(q, n.peers, 0, p);
    assert SendFrom(q, p) == LastIndex(n.log);
  }

  lemma ResponseSent(n: Node, m: Message, p: Id)
    requires n.role == Leader && Caught(n, p) && n.msgs == [] && m.body.AppendEntriesResponse?
    requires m.from == p && m.term == n.currentTerm ==> m.body.success
    requires AfterAppendResponse(n, m).role == Leader
    ensures SentOn(n, AfterAppendResponse(n, m), p)
  {
    hide CommitUpTo, SendAppend, AckRead, LogOk;
    var r := AfterAppendResponse(n, m);
    if m.term == n.currentTerm {
      var a := if m.body.readCtx != 0 then AckRead(n, m.body.readCtx, m.from) else n;
      AckReadFields(n, m.body.readCtx, m.from);
      if !m.body.success {
        var b := a.(nextIndex := if At(a.nextIndex, m.from) > 1 then a.nextIndex[m.from := At(a.nextIndex, m.from) - 1] else a.nextIndex,
                    sentIndex := a.sentIndex[m.from := 0]);
        SendAppendSends(b, m.from, 0, p);
        SendAppendLog(b, m.from, 0);
      }
    }
    StillSent(n, r, p);
  }

  lemma AnswerSent(n: Node, f: Node, to: Id, body: Body, p: Id)
    requires Caught(n, p) && n.msgs == [] && f.msgs == [] && f.log == n.log && f.sentIndex == n.sentIndex && !body.AppendEntries?
    ensures SentOn(n, Send(f, to, body), p) && SentOn(n, f, p)
  {
    SentToSend(f, to, body, p);
    StillSent(n, Send(f, to, body), p);
    StillSent(n, f, p);
  }

  lemma VotesSent(n: Node, m: Message, p: Id)
    requires n.role == Leader && Caught(n, p) && n.msgs == [] && LogOk(n.log)
    ensures m.body.PreVote? ==> SentOn(n, AfterPreVote(n, m), p)
    ensures m.body.PreVoteResponse? ==> SentOn(n, AfterPreVoteResponse(n, m), p)
    ensures m.body.RequestVote? && AfterRequestVote(n, m).role == Leader ==> SentOn(n, AfterRequestVote(n, m), p)
    ensures m.body.RequestVoteResponse? && AfterRequestVoteResponse(n, m).role == Leader ==> SentOn(n, AfterRequestVoteResponse(n, m), p)
  {
    hide LogOk, LogUpToDate, SentOn, Caught;
    forall g: bool
      ensures SentOn(n, Send(n, m.from, PreVoteResponse(g)), p)
    {
      AnswerSent(n, n, m.from, PreVoteResponse(g), p);
    }
    AnswerSent(n, n, m.from, RequestVoteResponse(false), p);
    AnswerSent(n, n.(votedFor := m.from), m.from, RequestVoteResponse(true), p);
  }

  lemma SnapshotsSent(n: Node, m: Message, p: Id)
    requires n.role == Leader && Caught(n, p) && n.msgs == [] && LogOk(n.log)
    ensures m.body.InstallSnapshot? && AfterInstall(n, m).role == Leader ==> SentOn(n, AfterInstall(n, m), p)
    ensures m.body.InstallSnapshotResponse? && AfterInstallResponse(n, m).role == Leader ==> SentOn(n, AfterInstallResponse(n, m), p)
  {
    hide LogOk, SentOn, Caught, AfterInstall, CommitUpTo;
    if m.body.InstallSnapshot? {
      InstallAnswer(n, m);
      AnswerSent(n, n, m.from, InstallSnapshotResponse(Base(n.log)), p);
    } else if m.body.InstallSnapshotResponse? && AfterInstallResponse(n, m).role == Leader {
      AnswerSent(n, AfterInstallResponse(n, m), m.from, PreVoteResponse(false), p);
    }
  }

  /** Answers to anything else. */
  lemma OtherSent(n: Node, m: Message, p: Id)
    requires n.role == Leader && Caught(n, p) && n.msgs == [] && !m.body.AppendEntriesResponse? && m.to == n.id && LogOk(n.log)
    requires m.body.AppendEntries? ==> EntriesOk(m.body.prevIndex, m.body.entries)
    requires AfterStep(n, m).Some? && AfterStep(n, m).value.role == Leader
    ensures SentOn(n, AfterStep(n, m).value, p)
  {
    hide LogOk, AfterAppend, AfterInstall, AfterPreVote, AfterPreVoteResponse, AfterRequestVote, AfterRequestVoteResponse,
         AfterInstallResponse, SentOn, Caught;
    match m.body
    case AppendEntries(_, _, _, _, _) =>
      AppendAsLeader(n, m);
      AnswerSent(n, n, m.from, AppendEntriesResponse(false, 0, 0), p);
    case InstallSnapshot(_) => SnapshotsSent(n, m, p);
    case InstallSnapshotResponse(_) => SnapshotsSent(n, m, p);
    case _ => VotesSent(n, m, p);
  }

  lemma AppendAsLeader(n: Node, m: Message)
    requires LogOk(n.log) && m.body.AppendEntries? && EntriesOk(m.body.prevIndex, m.body.entries)
    ensures AfterAppend(n, m).Some? && AfterAppend(n, m).value.role == Leader ==>
              AfterAppend(n, m).value == Send(n, m.from, AppendEntriesResponse(false, 0, 0))
  {
    hide AfterAppend, Merge;
    if m.term < n.currentTerm { StaleAnswer(n, m); } else { AppendAnswer(n, m); }
  }

  /** Every handler of a leader that stays one, for a peer that has not rejected. */
  lemma HandledSent(n: Node, a: Action, ctx: nat, p: Id)
    requires n.role == Leader && Caught(n, p) && InReach(n, p) && Distinct(n.peers) && p in n.peers && n.msgs == [] && Persists(a)
    requires LogOk(n.log)
    requires a.Deliver? && a.m.body.AppendEntries? ==> EntriesOk(a.m.body.prevIndex, a.m.body.entries)
    requires a.Deliver? && a.m.body.AppendEntriesResponse? && a.m.from == p && a.m.term == n.currentTerm ==> a.m.body.success
    requires a.Deliver? ==> a.m.to == n.id
    requires Handled(n, a, ctx).Some? && Handled(n, a, ctx).value.role == Leader
    ensures SentOn(n, Handled(n, a, ctx).value, p)
  {
    hide AfterStep, BecomePreCandidate, AfterPropose, AfterAppendResponse, SendAppends, LogOk, HasMajority, InReach, Caught, SentOn;
    match a
    case Timeout(_) => StillSent(n, n, p);
    case Heartbeat(_) => RoundSent(n, 0, p);
    case Propose(_, datas) => ProposeSent(n, datas, p);
    case Read(_) => ReadSent(n, ctx, p);
    case Deliver(_, m) =>
      if m.body.AppendEntriesResponse? {
        ResponseStep(n, m);
        ResponseSent(n, m, p);
      } else {
        OtherSent(n, m, p);
      }
  }

  lemma ResponseStep(n: Node, m: Message)
    requires LogOk(n.log) && m.body.AppendEntriesResponse? && m.to == n.id
    ensures AfterStep(n, m) == Some(AfterAppendResponse(n, m))
  {
    hide AfterAppendResponse;
  }

  lemma ReadSent(n: Node, ctx: nat, p: Id)
    requires n.role == Leader && Caught(n, p) && InReach(n, p) && Distinct(n.peers) && p in n.peers && n.msgs == []
    ensures SentOn(n, AfterReadRequest(n, ctx), p)
  {
    hide SendAppends, EntriesIn, LogOk, HasMajority;
    if HasMajority(n, 1) {
      StillSent(n, AfterReadRequest(n, ctx), p);
    } else {
      RoundSent(n.(pendingReads := n.pendingReads[ctx := PendingRead(n.commitIndex, {n.id})]), ctx, p);
    }
  }

  /** An election sends p an empty AppendEntries and starts from the end of the log. */
  lemma LeaderSent(n: Node, p: Id)
    requires LogOk(n.log) && n.msgs == [] && Distinct(n.peers) && p in n.peers
    ensures SentOn(n, BecomeLeader(n), p) && BecomeLeader(n).log == n.log
  {
    hide SendAppends;
    var l := n.(role := Leader, leaderId := n.id,
                nextIndex := InitialNext(n.peers, LastIndex(n.log) + 1),
                matchIndex := InitialNext(n.peers, 0),
                sentIndex := map[], pendingReads := map[]);
    SendAppendsSends(l, n.peers, 0, p);
    NothingLeft(n.log);
  }

  lemma AppendRole(n: Node, m: Message)
    requires n.role != Leader && LogOk(n.log) && m.body.AppendEntries? && EntriesOk(m.body.prevIndex, m.body.entries)
    ensures AfterAppend(n, m).Some? ==> AfterAppend(n, m).value.role != Leader
  {
    hide AfterAppend, Merge;
    if m.term < n.currentTerm { StaleAnswer(n, m); } else { AppendAnswer(n, m); }
  }

  lemma InstallRole(n: Node, m: Message)
    requires n.role != Leader && LogOk(n.log)
    ensures m.body.InstallSnapshot? ==> AfterInstall(n, m).role != Leader
    ensures m.body.InstallSnapshotResponse? ==> AfterInstallResponse(n, m).role != Leader
    ensures m.body.AppendEntriesResponse? ==> AfterAppendResponse(n, m).role != Leader
  {
    hide AfterInstall;
    if m.body.InstallSnapshot? { InstallAnswer(n, m); }
  }

  lemma VoteRole(n: Node, m: Message)
    requires n.role != Leader && LogOk(n.log) && n.peers != []
    ensures m.body.PreVote? ==> AfterPreVote(n, m).role != Leader
    ensures m.body.PreVoteResponse? ==> AfterPreVoteResponse(n, m).role != Leader
    ensures m.body.RequestVote? ==> AfterRequestVote(n, m).role != Leader
  {
    hide BecomeCandidate, LogUpToDate, HasMajority, LogOk;
    CandidacySends(n.(preVotesReceived := n.preVotesReceived + {m.from}));
  }

  /** With peers around, only a vote makes a leader. */
  lemma OnlyVotesElect(n: Node, m: Message)
    requires n.role != Leader && LogOk(n.log) && n.peers != [] && (m.body.AppendEntries? ==> EntriesOk(m.body.prevIndex, m.body.entries))
    requires AfterStep(n, m).Some? && AfterStep(n, m).value.role == Leader
    ensures m.body.RequestVoteResponse? && AfterStep(n, m).value == BecomeLeader(n.(votesReceived := n.votesReceived + {m.from}))
  {
    hide BecomeLeader, LogOk, HasMajority, AfterAppend, AfterInstall, AfterPreVote, AfterPreVoteResponse, AfterRequestVote,
         AfterInstallResponse, AfterAppendResponse;
    if m.body.AppendEntries? { AppendRole(n, m); }
    InstallRole(n, m);
    VoteRole(n, m);
  }

  lemma ElectedSent(n: Node, a: Action, ctx: nat, p: Id)
    requires n.role != Leader && LogOk(n.log) && Distinct(n.peers) && p in n.peers && n.msgs == [] && Persists(a)
    requires a.Deliver? && a.m.body.AppendEntries? ==> EntriesOk(a.m.body.prevIndex, a.m.body.entries)
    requires Handled(n, a, ctx).Some? && Handled(n, a, ctx).value.role == Leader
    ensures SentOn(n, Handled(n, a, ctx).value, p)
  {
    hide BecomeLeader, BecomePreCandidate, AfterStep, LogOk, SentOn;
    CandidacySends(n);
    OnlyVotesElect(n, a.m);
    LeaderSent(n.(votesReceived := n.votesReceived + {a.m.from}), p);
    SentSame(n.(votesReceived := n.votesReceived + {a.m.from}), n, Handled(n, a, ctx).value, p);
  }

  lemma SentSame(c: Node, n: Node, r: Node, p: Id)
    requires SentOn(c, r, p) && c.log == n.log
    ensures SentOn(n, r, p)
  {
  }

  lemma CandidacySends(n: Node)
    requires LogOk(n.log) && n.peers != []
    ensures BecomePreCandidate(n).role == PreCandidate && BecomeCandidate(n).role == Candidate
  {
    forall c: Node, body: Body ensures Broadcast(c, n.peers, body).role == c.role { BroadcastSame(c, n.peers, body); }
  }
}

/** The same over a whole reign. */
module RaftPipeline {
  import opened Bytes
  import opened RaftTypes
  import opened RaftNode
  import opened RaftCluster
  import opened RaftSteps
  import opened RaftRuns
  import opened RaftPolls
  import opened RaftReads
  import opened RaftPipelineSteps

  /** The entries one step sends from v to p. */
  function StepSent(s: Cluster, a: Action, v: Id, p: Id): seq<Entry> {
    if a.v == v && Possible(s, a) && Persists(a) && HandledAt(s, a).Some? then SentTo(HandledAt(s, a).value.msgs, p) else []
  }

  /** The entries of all AppendEntries v sends to p in the steps from i up to j, in order. */
  function Sent(states: seq<Cluster>, actions: seq<Action>, i: nat, j: nat, v: Id, p: Id): seq<Entry>
    requires j <= |actions| && |states| == |actions| + 1
    decreases j
  {
    if j <= i then [] else Sent(states, actions, i, j - 1, v, p) + StepSent(states[j - 1], actions[j - 1], v, p)
  }

  /** Step i elects v; from then on, to j, it leads, p does not reject, and what p needs next is in the log or just past it. */
  ghost predicate Reign(states: seq<Cluster>, actions: seq<Action>, i: nat, j: nat, v: Id, p: Id) {
    && PossibleRun(states, actions) && i < j <= |actions| && |states| == |actions| + 1
    && v in states[i].nodes && states[i].nodes[v].role != Leader && p in states[i].nodes[v].peers
    && (forall k :: i < k <= j ==> v in states[k].nodes && states[k].nodes[v].role == Leader)
    && (forall k :: i < k < j ==> InReach(states[k].nodes[v], p))
    && (forall k :: i < k < j ==> !Rejects(states[k].nodes[v], actions[k], v, p))
  }

  predicate Rejects(n: Node, a: Action, v: Id, p: Id) {
    a.Deliver? && a.v == v && a.m.body.AppendEntriesResponse? && a.m.from == p && a.m.term == n.currentTerm && !a.m.body.success
  }

  /** The log of r is the log of n and then the entries, less what was compacted. */
  ghost predicate Continues(n: Node, r: Node, es: seq<Entry>) {
    && LogOk(n.log) && LogOk(r.log) && LastIndex(r.log) == LastIndex(n.log) + |es|
    && forall k: nat :: Holds(r, k) ==>
         if k <= LastIndex(n.log) then Holds(n, k) && EntryAt(r, k) == EntryAt(n, k) else EntryAt(r, k) == es[k - LastIndex(n.log) - 1]
  }

  lemma ContinuesOn(n: Node, r: Node, q: Node, es: seq<Entry>, fs: seq<Entry>)
    requires Continues(n, r, es) && Continues(r, q, fs)
    ensures Continues(n, q, es + fs)
  {
    hide LogOk;
    forall k: nat | Holds(q, k)
      ensures if k <= LastIndex(n.log) then Holds(n, k) && EntryAt(q, k) == EntryAt(n, k) else EntryAt(q, k) == (es + fs)[k - LastIndex(n.log) - 1]
    {
      if k <= LastIndex(r.log) { assert Holds(r, k); }
    }
  }

  // ---------------------------------------------------------------- one step

  lemma PeerKnown(s: Cluster, v: Id)
    requires Polled(s) && v in s.nodes
    ensures LogOk(s.nodes[v].log) && Distinct(s.nodes[v].peers) && s.nodes[v].msgs == [] && s.nodes[v].id == v
  {
    hide Polled, Polls, DiskPolled, VoteView;
    PolledNode(s, v);
  }

  lemma SentContinues(n: Node, r: Node, p: Id)
    requires SentOn(n, r, p)
    ensures Continues(n, Advance(r), SentTo(r.msgs, p)) && Caught(Advance(r), p)
  {
    hide SentTo;
  }

  /** A step in which v, a leader before and after, runs no handler. */
  lemma QuietContinues(s: Cluster, a: Action, p: Id)
    requires Possible(s, a) && !(Persists(a) && HandledAt(s, a).Some?) && Caught(s.nodes[a.v], p)
    requires a.v in After(s, a).nodes && After(s, a).nodes[a.v].role == Leader
    ensures var r := After(s, a).nodes[a.v]; Continues(s.nodes[a.v], r, []) && Caught(r, p) && r.peers == s.nodes[a.v].peers
  {
    hide Handled, HistCrash, Recoverable, Continues, Caught;
    assert a.Compact? && !CompactPanics(s.nodes[a.v], a.index);
    CompactContinues(s.nodes[a.v], a.index, a.data, p);
  }

  lemma CompactContinues(n: Node, index: nat, data: Bytes, p: Id)
    requires LogOk(n.log) && !CompactPanics(n, index) && Caught(n, p)
    ensures Continues(n, AfterCompact(n, index, data), []) && Caught(AfterCompact(n, index, data), p)
  {
  }

  lemma SameContinues(n: Node)
    requires LogOk(n.log)
    ensures Continues(n, n, [])
  {
  }

  lemma OtherUntouched(s: Cluster, a: Action, v: Id)
    requires Possible(s, a) && v in s.nodes && v != a.v
    ensures v in After(s, a).nodes && After(s, a).nodes[v] == s.nodes[v]
  {
    hide Handled, History, HistCrash;
    if Persists(a) { HandledLogOk(s.nodes[a.v], a, s.nextReadCtx[a.v]); }
  }

  /** A step that runs v's handler. */
  lemma HandlerSent(s: Cluster, a: Action, r: Node, p: Id)
    requires Possible(s, a) && Persists(a) && HandledAt(s, a) == Some(r) && r.role == Leader && p in s.nodes[a.v].peers
    requires s.nodes[a.v].role == Leader ==> Caught(s.nodes[a.v], p) && InReach(s.nodes[a.v], p) && !Rejects(s.nodes[a.v], a, a.v, p)
    requires Polled(s)
    ensures SentOn(s.nodes[a.v], r, p)
  {
    hide Polled, Handled, SentOn, Caught, InReach;
    PeerKnown(s, a.v);
    if s.nodes[a.v].role == Leader {
      HandledSent(s.nodes[a.v], a, s.nextReadCtx[a.v], p);
    } else {
      ElectedSent(s.nodes[a.v], a, s.nextReadCtx[a.v], p);
    }
  }

  /** One step of v's reign. */
  lemma ReignStep(s: Cluster, a: Action, t: Cluster, v: Id, p: Id)
    requires Possible(s, a) && t == After(s, a) && v in s.nodes && p in s.nodes[v].peers && v in t.nodes && t.nodes[v].role == Leader
    requires s.nodes[v].role == Leader ==> Caught(s.nodes[v], p) && InReach(s.nodes[v], p) && !Rejects(s.nodes[v], a, v, p)
    requires Polled(s)
    ensures Continues(s.nodes[v], t.nodes[v], StepSent(s, a, v, p)) && Caught(t.nodes[v], p)
  {
    hide Polled, Silent, Handled, History, After, SentOn, Caught, InReach, Continues, Formed, Recoverable;
    StepShape(s, a);
    PeerKnown(s, v);
    if a.v != v {
      OtherUntouched(s, a, v);
      SameContinues(s.nodes[v]);
    } else if Persists(a) && HandledAt(s, a).Some? {
      HandlerSent(s, a, HandledAt(s, a).value, p);
      SentContinues(s.nodes[v], HandledAt(s, a).value, p);
    } else {
      SilentLeads(s, t, v);
      QuietContinues(s, a, p);
    }
  }

  lemma SilentLeads(s: Cluster, t: Cluster, v: Id)
    requires Silent(s, t, v) && t.nodes[v].role == Leader
    ensures s.nodes[v].role == Leader
  {
  }

  lemma PeersStay(s: Cluster, a: Action, v: Id, p: Id)
    requires Possible(s, a) && v in s.nodes && v in After(s, a).nodes && p in s.nodes[v].peers && Polled(s)
    ensures p in After(s, a).nodes[v].peers
  {
    hide Polled, Possible, After, Moves, Polls, DiskPolled, VoteView;
    PolledStep(s, a);
    MovesIds(s.core, After(s, a).core, a.v);
    PolledNode(s, v);
    PolledNode(After(s, a), v);
  }

  // ----------------------------------------------------------------- theorem

  lemma ReignShorter(states: seq<Cluster>, actions: seq<Action>, i: nat, j: nat, v: Id, p: Id)
    requires Reign(states, actions, i, j, v, p)
    ensures PossibleRun(states, actions) && i < j <= |actions| && |states| == |actions| + 1
    ensures v in states[j].nodes && states[j].nodes[v].role == Leader
    ensures j > i + 1 ==> Reign(states, actions, i, j - 1, v, p)
    ensures v in states[i].nodes && states[i].nodes[v].role != Leader && p in states[i].nodes[v].peers
    ensures j > i + 1 ==> v in states[j - 1].nodes && InReach(states[j - 1].nodes[v], p) && !Rejects(states[j - 1].nodes[v], actions[j - 1], v, p)
  {
    hide PossibleRun, Rejects, InReach;
  }

  lemma {:induction false} ReignSent(states: seq<Cluster>, actions: seq<Action>, i: nat, j: nat, v: Id, p: Id)
    requires Reign(states, actions, i, j, v, p)
    ensures v in states[i].nodes && v in states[j].nodes && p in states[j].nodes[v].peers && Caught(states[j].nodes[v], p)
    ensures Continues(states[i].nodes[v], states[j].nodes[v], Sent(states, actions, i, j, v, p))
    decreases j
  {
    hide PossibleRun, Polled, Possible, After, Caught, StepSent, Rejects, Reign, InReach, Continues;
    ReignShorter(states, actions, i, j, v, p);
    RunPolled(states, actions, j - 1);
    PossibleStep(states, actions, j - 1);
    if j == i + 1 {
      assert Sent(states, actions, i, i, v, p) == [];
    } else {
      ReignSent(states, actions, i, j - 1, v, p);
    }
    var s, a := states[j - 1], actions[j - 1];
    ReignStep(s, a, states[j], v, p);
    PeersStay(s, a, v, p);
    if j == i + 1 {
      assert [] + StepSent(s, a, v, p) == StepSent(s, a, v, p);
    } else {
      ContinuesOn(states[i].nodes[v], s.nodes[v], states[j].nodes[v], Sent(states, actions, i, j - 1, v, p), StepSent(s, a, v, p));
    }
  }

  lemma ReignPart(states: seq<Cluster>, actions: seq<Action>, i: nat, j: nat, v: Id, p: Id, h: nat)
    requires Reign(states, actions, i, j, v, p) && i < h <= j
    ensures Reign(states, actions, i, h, v, p)
  {
    hide PossibleRun, Rejects, InReach;
  }

  lemma {:induction false} SentPart(states: seq<Cluster>, actions: seq<Action>, i: nat, j: nat, v: Id, p: Id, h: nat)
    requires i < h <= j <= |actions| && |states| == |actions| + 1
    ensures Sent(states, actions, i, h, v, p) <= Sent(states, actions, i, j, v, p)
    decreases j
  {
    hide Sent;
    if h < j {
      SentPart(states, actions, i, j - 1, v, p, h);
      SentLonger(states, actions, i, j, v, p);
    }
  }

  lemma SentLonger(states: seq<Cluster>, actions: seq<Action>, i: nat, j: nat, v: Id, p: Id)
    requires i < j <= |actions| && |states| == |actions| + 1
    ensures Sent(states, actions, i, j - 1, v, p) <= Sent(states, actions, i, j, v, p)
  {
    hide StepSent;
  }

  /**
   * Over a reign without rejections, the entries sent to a peer are the entries the leader appends
   * after the log it was elected with, each once and in order: as many as the log has grown by,
   * and every entry it has held on the way is at its place among them.
   */
  lemma SendOnce(states: seq<Cluster>, actions: seq<Action>, i: nat, j: nat, v: Id, p: Id, h: nat, k: nat)
    requires Reign(states, actions, i, j, v, p) && i < h <= j
    ensures LogOk(states[i].nodes[v].log) && LogOk(states[j].nodes[v].log)
    ensures var sent, first := Sent(states, actions, i, j, v, p), LastIndex(states[i].nodes[v].log);
            && LastIndex(states[j].nodes[v].log) == first + |sent|
            && (Holds(states[h].nodes[v], k) && k > first ==> k - first - 1 < |sent| && sent[k - first - 1] == EntryAt(states[h].nodes[v], k))
  {
    hide Reign, EntryAt, Caught, Sent;
    ReignShorter(states, actions, i, j, v, p);
    ReignSent(states, actions, i, j, v, p);
    ReignPart(states, actions, i, j, v, p, h);
    SentPart(states, actions, i, j, v, p, h);
    ReignSent(states, actions, i, h, v, p);
  }
}
