/**
 * Pre-Vote over every possible run: a node of a cluster of several raises its term by itself only if a
 * majority had found a log it asked with up to date.
 */
module RaftPreVotes {
  import opened RaftTypes
  import opened Quorums
  import opened RaftNode
  import opened RaftCluster
  import opened RaftSteps
  import opened RaftRuns
  import opened RaftPolls
  import opened RaftReadSteps
  import opened RaftReads
  import opened RaftProgress

  // ----------------------------------------------------------------------- handlers

  predicate Voteless(m: Message) { !m.body.PreVote? && !m.body.PreVoteResponse? }

  /** What an action does as far as pre-votes go. */
  predicate PreVoteStep(n: Node, a: Action, r: Node)
    requires LogOk(n.log)
  {
    && (forall m :: m in r.msgs ==> PreVoteSent(n, a, m))
    && (r.role == PreCandidate ==> forall w :: w in r.preVotesReceived ==> CountedFrom(n, a, w))
    && (r.currentTerm > n.currentTerm && r.role != Follower && n.peers != [] ==>
          && a.Deliver? && a.m.body == PreVoteResponse(true) && n.role == PreCandidate && HasMajority(n, |n.preVotesReceived + {a.m.from}|))
  }

  /** A pre-vote asks with the node's own log, and is granted only to a log that is up to date. */
  predicate PreVoteSent(n: Node, a: Action, m: Message)
    requires LogOk(n.log)
  {
    match m.body
    case PreVote(index, term) => index == LastIndex(n.log) && term == LastTermOf(n.log)
    case PreVoteResponse(true) => a.Deliver? && a.m.body.PreVote? && a.m.from == m.to && LogUpToDate(n, a.m.body.lastIndex, a.m.body.lastTerm)
    case _ => true
  }

  /** A pre-vote counted is one's own, one counted before, or the one that has just come in. */
  predicate CountedFrom(n: Node, a: Action, w: Id) {
    w == n.id || (n.role == PreCandidate && w in n.preVotesReceived) || (a.Deliver? && a.m.body == PreVoteResponse(true) && a.m.from == w)
  }

  lemma {:induction false} AppendsVoteless(n: Node, to: seq<Id>, ctx: nat)
    requires LogOk(n.log) && forall m :: m in n.msgs ==> Voteless(m)
    ensures forall m :: m in SendAppends(n, to, ctx).msgs ==> Voteless(m)
    decreases |to|
  {
    hide LogOk, EntriesIn, TermIn;
    if to != [] { AppendsVoteless(SendAppend(n, to[0], ctx), to[1..], ctx); }
  }

  lemma LeaderVoteless(n: Node)
    requires LogOk(n.log) && forall m :: m in n.msgs ==> Voteless(m)
    ensures var r := BecomeLeader(n); r.role == Leader && r.currentTerm == n.currentTerm && forall m :: m in r.msgs ==> Voteless(m)
  {
    hide LogOk, SendAppends, CommitUpTo, Voteless;
    LeaderOut(n);
    var l := n.(role := Leader, leaderId := n.id, nextIndex := InitialNext(n.peers, LastIndex(n.log) + 1),
                matchIndex := InitialNext(n.peers, 0), sentIndex := map[], pendingReads := map[]);
    AppendsVoteless(l, n.peers, 0);
  }

  lemma CandidateVoteless(n: Node)
    requires LogOk(n.log) && n.peers != [] && forall m :: m in n.msgs ==> Voteless(m)
    ensures var r := BecomeCandidate(n); r.role == Candidate && forall m :: m in r.msgs ==> Voteless(m)
  {
    hide LogOk;
    CandidateOut(n);
  }

  lemma TimeoutPreVotes(n: Node, a: Action)
    requires LogOk(n.log) && n.msgs == [] && a.Timeout? && n.role != Leader
    ensures PreVoteStep(n, a, BecomePreCandidate(n))
  {
    hide LogOk, BecomePreCandidate, BecomeLeader, LogUpToDate, HasMajority;
    if n.peers != [] { PreCandidateOut(n); } else { AloneVoteless(n); }
  }

  lemma AloneVoteless(n: Node)
    requires LogOk(n.log) && n.msgs == [] && n.peers == []
    ensures BecomePreCandidate(n).role == Leader && BecomePreCandidate(n).msgs == []
  {
    hide LogOk, CommitUpTo;
  }

  lemma CountedPreVotes(n: Node, a: Action)
    requires LogOk(n.log) && n.msgs == [] && a.Deliver? && a.m.body.PreVoteResponse? && n.peers != []
    ensures PreVoteStep(n, a, AfterPreVoteResponse(n, a.m))
  {
    hide LogOk, BecomeCandidate, LogUpToDate, HasMajority;
    var c := n.(preVotesReceived := n.preVotesReceived + {a.m.from});
    SameMajority(n, c, |c.preVotesReceived|);
    CandidateVoteless(c);
  }

  lemma AloneCounted(n: Node, a: Action)
    requires LogOk(n.log) && n.msgs == [] && a.Deliver? && a.m.body.PreVoteResponse? && n.peers == []
    ensures PreVoteStep(n, a, AfterPreVoteResponse(n, a.m))
  {
    hide LogOk, BecomeLeader, LogUpToDate, HasMajority, Voteless;
    var c := n.(preVotesReceived := n.preVotesReceived + {a.m.from});
    LeaderVoteless(c.(currentTerm := c.currentTerm + 1, role := Candidate, votedFor := c.id, leaderId := 0, votesReceived := {c.id}));
    VotelessSent(n, a);
  }

  lemma VotelessSent(n: Node, a: Action)
    requires LogOk(n.log)
    ensures forall m :: Voteless(m) ==> PreVoteSent(n, a, m)
  {
  }

  lemma VotedPreVotes(n: Node, a: Action)
    requires LogOk(n.log) && n.msgs == [] && a.Deliver? && a.m.body.RequestVoteResponse?
    ensures PreVoteStep(n, a, AfterRequestVoteResponse(n, a.m))
  {
    hide LogOk, BecomeLeader, LogUpToDate, HasMajority, Voteless;
    LeaderVoteless(n.(votesReceived := n.votesReceived + {a.m.from}));
    VotelessSent(n, a);
  }

  lemma AskedPreVotes(n: Node, a: Action)
    requires LogOk(n.log) && n.msgs == [] && a.Deliver?
    ensures a.m.body.PreVote? ==> PreVoteStep(n, a, AfterPreVote(n, a.m))
    ensures a.m.body.RequestVote? ==> PreVoteStep(n, a, AfterRequestVote(n, a.m))
  {
    hide LogOk, LogUpToDate, HasMajority, AfterRequestVote, AfterPreVote, PreVoteStep;
    if a.m.body.PreVote? { AskedPreVote(n, a); }
    if a.m.body.RequestVote? { AskedRequestVote(n, a); }
  }

  lemma AskedPreVote(n: Node, a: Action)
    requires LogOk(n.log) && n.msgs == [] && a.Deliver? && a.m.body.PreVote?
    ensures PreVoteStep(n, a, AfterPreVote(n, a.m))
  {
    hide LogOk, LogUpToDate, HasMajority, LastIndex, LastTermOf;
  }

  lemma AskedRequestVote(n: Node, a: Action)
    requires LogOk(n.log) && n.msgs == [] && a.Deliver? && a.m.body.RequestVote?
    ensures PreVoteStep(n, a, AfterRequestVote(n, a.m))
  {
    hide LogOk, LogUpToDate, HasMajority, AfterRequestVote, LastIndex, LastTermOf;
    AskedVote(n, a.m);
  }

  /** Everything else keeps the role or gives it up, and says nothing about pre-votes. */
  predicate Plain(n: Node, r: Node) {
    && (forall m :: m in r.msgs ==> Voteless(m)) && (r.role == Follower || (r.role == n.role && r.currentTerm == n.currentTerm))
    && r.preVotesReceived == n.preVotesReceived
  }

  lemma PlainStep(n: Node, a: Action, r: Node)
    requires LogOk(n.log) && Plain(n, r)
    ensures PreVoteStep(n, a, r)
  {
    hide LogOk, LogUpToDate, HasMajority, Voteless;
    VotelessSent(n, a);
  }

  lemma AppendPlain(n: Node, m: Message)
    requires LogOk(n.log) && n.msgs == [] && m.body.AppendEntries? && EntriesOk(m.body.prevIndex, m.body.entries)
    ensures AfterAppend(n, m).Some? ==> Plain(n, AfterAppend(n, m).value)
  {
    hide LogOk, Merge, TermIn, AfterAppend, LastIndex, Base;
    if m.term < n.currentTerm { StaleAnswer(n, m); } else { AppendAnswer(n, m); }
  }

  lemma ResponsePlain(n: Node, m: Message)
    requires LogOk(n.log) && n.msgs == []
    ensures m.body.AppendEntriesResponse? ==> Plain(n, AfterAppendResponse(n, m))
    ensures m.body.InstallSnapshotResponse? ==> Plain(n, AfterInstallResponse(n, m))
    ensures m.body.InstallSnapshot? ==> Plain(n, AfterInstall(n, m))
  {
    hide LogOk, CommitUpTo, AfterAppendResponse, AfterInstall;
    match m.body
    case AppendEntriesResponse(_, _, _) => AcknowledgedPlain(n, m);
    case InstallSnapshot(_) => InstallAnswer(n, m);
    case _ =>
  }

  lemma AcknowledgedPlain(n: Node, m: Message)
    requires LogOk(n.log) && n.msgs == [] && m.body.AppendEntriesResponse?
    ensures Plain(n, AfterAppendResponse(n, m))
  {
    hide LogOk, CommitUpTo, SendAppend, AckRead;
    var ctx := m.body.readCtx;
    AckReadFields(n, ctx, m.from);
    var a := if ctx != 0 then AckRead(n, ctx, m.from) else n;
    OnePlain(a.(nextIndex := if At(a.nextIndex, m.from) > 1 then a.nextIndex[m.from := At(a.nextIndex, m.from) - 1] else a.nextIndex,
                sentIndex := a.sentIndex[m.from := 0]), m.from);
  }

  lemma OnePlain(n: Node, p: Id)
    requires LogOk(n.log) && n.msgs == []
    ensures Plain(n, SendAppend(n, p, 0))
  {
    hide LogOk, EntriesIn, TermIn, LastIndex, Base, At, Pred;
  }

  lemma LocalPlain(n: Node, a: Action, ctx: nat)
    requires LogOk(n.log) && n.msgs == [] && (a.Heartbeat? || a.Propose? || a.Read?)
    ensures Handled(n, a, ctx).Some? && Plain(n, Handled(n, a, ctx).value)
  {
    hide LogOk, CommitUpTo, SendAppends, Voteless;
    match a
    case Heartbeat(_) => AppendsVoteless(n, n.peers, 0); SendAppendsSame(n, n.peers, 0);
    case Propose(_, datas) =>
      NewLogOk(n.log, n.currentTerm, datas);
      var p := n.(log := n.log + NewEntries(n.currentTerm, LastIndex(n.log) + 1, datas));
      AppendsVoteless(p, n.peers, 0);
      SendAppendsSame(p, n.peers, 0);
    case Read(_) =>
      var p := n.(pendingReads := n.pendingReads[ctx := PendingRead(n.commitIndex, {n.id})]);
      AppendsVoteless(p, n.peers, ctx);
      SendAppendsSame(p, n.peers, ctx);
  }

  lemma StepPreVotes(n: Node, a: Action)
    requires LogOk(n.log) && n.msgs == [] && a.Deliver? && a.m.to == n.id
    requires a.m.body.AppendEntries? ==> EntriesOk(a.m.body.prevIndex, a.m.body.entries)
    ensures AfterStep(n, a.m).Some? ==> PreVoteStep(n, a, AfterStep(n, a.m).value)
  {
    hide LogOk, PreVoteStep, Plain, AfterAppend, AfterInstall, AfterAppendResponse, AfterPreVote, AfterPreVoteResponse, AfterRequestVote,
         AfterRequestVoteResponse, AfterInstallResponse;
    match a.m.body
    case PreVote(_, _) => AskedPreVotes(n, a);
    case RequestVote(_, _) => AskedPreVotes(n, a);
    case PreVoteResponse(_) => if n.peers != [] { CountedPreVotes(n, a); } else { AloneCounted(n, a); }
    case RequestVoteResponse(_) => VotedPreVotes(n, a);
    case AppendEntries(_, _, _, _, _) =>
      AppendPlain(n, a.m);
      if AfterAppend(n, a.m).Some? { PlainStep(n, a, AfterAppend(n, a.m).value); }
    case AppendEntriesResponse(_, _, _) => ResponsePlain(n, a.m); PlainStep(n, a, AfterAppendResponse(n, a.m));
    case InstallSnapshot(_) => ResponsePlain(n, a.m); PlainStep(n, a, AfterInstall(n, a.m));
    case InstallSnapshotResponse(_) => ResponsePlain(n, a.m); PlainStep(n, a, AfterInstallResponse(n, a.m));
  }

  lemma HandledPreVotes(n: Node, a: Action, ctx: nat)
    requires LogOk(n.log) && n.msgs == [] && Persists(a)
    requires a.Deliver? ==> a.m.to == n.id && (a.m.body.AppendEntries? ==> EntriesOk(a.m.body.prevIndex, a.m.body.entries))
    ensures Handled(n, a, ctx).Some? ==> PreVoteStep(n, a, Handled(n, a, ctx).value)
  {
    hide LogOk, PreVoteStep, Plain, AfterStep, BecomePreCandidate, AfterHeartbeat, AfterPropose, AfterReadRequest;
    if a.Deliver? {
      StepPreVotes(n, a);
    } else if !a.Timeout? {
      LocalPlain(n, a, ctx);
      PlainStep(n, a, Handled(n, a, ctx).value);
    } else if n.role == Leader {
      SelfPlain(n);
      PlainStep(n, a, n);
    } else {
      TimeoutPreVotes(n, a);
    }
  }

  lemma SelfPlain(n: Node)
    requires n.msgs == []
    ensures Plain(n, n)
  {
  }

  // -------------------------------------------------------------------------- over a run

  /** By point i, v's log had ended with this index and term. */
  ghost predicate Had(states: seq<Cluster>, i: nat, v: Id, index: nat, term: nat) {
    exists g: nat :: g <= i && g < |states| && EndsWith(states[g], v, index, term)
  }

  predicate EndsWith(s: Cluster, v: Id, index: nat, term: nat) {
    v in s.nodes && LogOk(s.nodes[v].log) && LastIndex(s.nodes[v].log) == index && LastTermOf(s.nodes[v].log) == term
  }

  /** By point i, w had found a log of v's up to date. */
  ghost predicate Found(states: seq<Cluster>, i: nat, w: Id, v: Id) {
    exists h: nat, index: nat, term: nat :: h <= i && h < |states| && Finds(states[h], w, index, term) && Had(states, h, v, index, term)
  }

  predicate Finds(s: Cluster, w: Id, index: nat, term: nat) {
    w in s.nodes && LogOk(s.nodes[w].log) && LogUpToDate(s.nodes[w], index, term)
  }

  ghost predicate Heard(states: seq<Cluster>, i: nat)
    requires i < |states|
  {
    && (forall m :: m in states[i].net && m.body.PreVote? ==> Had(states, i, m.from, m.body.lastIndex, m.body.lastTerm))
    && (forall m :: m in states[i].net && m.body == PreVoteResponse(true) ==> Found(states, i, m.from, m.to))
    && (forall v, w :: Counts(states[i], v, w) ==> w == v || Found(states, i, w, v))
  }

  predicate Counts(s: Cluster, v: Id, w: Id) { v in s.nodes && s.nodes[v].role == PreCandidate && w in s.nodes[v].preVotesReceived }

  lemma HadLater(states: seq<Cluster>, i: nat, j: nat, v: Id, index: nat, term: nat)
    requires Had(states, i, v, index, term) && i <= j
    ensures Had(states, j, v, index, term)
  {
    hide EndsWith;
  }

  lemma FoundLater(states: seq<Cluster>, i: nat, j: nat, w: Id, v: Id)
    requires Found(states, i, w, v) && i <= j
    ensures Found(states, j, w, v)
  {
    hide Finds, Had;
  }

  /** What a message of the step says is so. */
  lemma SentHeard(states: seq<Cluster>, i: nat, a: Action, r: Node, m: Message)
    requires i < |states| && a.v in states[i].nodes && LogOk(states[i].nodes[a.v].log) && PreVoteStep(states[i].nodes[a.v], a, r) && m in r.msgs && m.from == a.v
    requires a.Deliver? ==> a.m in states[i].net
    requires Heard(states, i)
    ensures m.body.PreVote? ==> Had(states, i, m.from, m.body.lastIndex, m.body.lastTerm)
    ensures m.body == PreVoteResponse(true) ==> Found(states, i, m.from, m.to)
  {
    hide LogUpToDate, LogOk, CountedFrom, Found, Had, HasMajority;
    assert PreVoteSent(states[i].nodes[a.v], a, m);
    if m.body.PreVote? { HadNow(states, i, a.v, m.body.lastIndex, m.body.lastTerm); }
    if m.body == PreVoteResponse(true) { FoundNow(states, i, a.v, a.m.from, a.m.body.lastIndex, a.m.body.lastTerm); }
  }

  lemma HadNow(states: seq<Cluster>, i: nat, v: Id, index: nat, term: nat)
    requires i < |states| && EndsWith(states[i], v, index, term)
    ensures Had(states, i, v, index, term)
  {
    hide EndsWith;
  }

  lemma FoundNow(states: seq<Cluster>, i: nat, w: Id, v: Id, index: nat, term: nat)
    requires i < |states| && Finds(states[i], w, index, term) && Had(states, i, v, index, term)
    ensures Found(states, i, w, v)
  {
    hide Finds, Had;
  }

  lemma CountedHeard(states: seq<Cluster>, i: nat, a: Action, w: Id)
    requires i < |states| && a.v in states[i].nodes && states[i].nodes[a.v].id == a.v && CountedFrom(states[i].nodes[a.v], a, w)
    requires (a.Deliver? ==> a.m in states[i].net && a.m.to == a.v) && Heard(states, i)
    ensures w == a.v || Found(states, i, w, a.v)
  {
    hide Found, Had;
    if states[i].nodes[a.v].role == PreCandidate && w in states[i].nodes[a.v].preVotesReceived { assert Counts(states[i], a.v, w); }
  }

  lemma SameIdentity(s: Cluster, v: Id)
    requires Polled(s) && v in s.nodes
    ensures s.nodes[v].id == v && LogOk(s.nodes[v].log) && s.nodes[v].msgs == [] && Wired(s.core.ids, s.nodes[v], v)
  {
    hide Polls, VoteView;
    PolledNode(s, v);
    PolledLog(s.core, s.nodes[v], v);
  }

  lemma HeardDone(states: seq<Cluster>, i: nat, a: Action, r: Node)
    requires i + 1 < |states| && Heard(states, i) && Handles(states[i], a, r, states[i + 1]) && states[i].nodes[a.v].id == a.v
    requires LogOk(states[i].nodes[a.v].log) && PreVoteStep(states[i].nodes[a.v], a, r)
    ensures Heard(states, i + 1)
  {
    hide Found, Had, LogOk, PreVoteStep, ContextSent, ContextEchoed, PendingFrom, SurfacedFrom, ReadStep;
    forall m | m in states[i + 1].net && (m.body.PreVote? || m.body == PreVoteResponse(true))
      ensures m.body.PreVote? ==> Had(states, i + 1, m.from, m.body.lastIndex, m.body.lastTerm)
      ensures m.body == PreVoteResponse(true) ==> Found(states, i + 1, m.from, m.to)
    {
      if m !in states[i].net { SentHeard(states, i, a, r, m); }
      if m.body.PreVote? { HadLater(states, i, i + 1, m.from, m.body.lastIndex, m.body.lastTerm); } else { FoundLater(states, i, i + 1, m.from, m.to); }
    }
    var t := states[i + 1];
    forall v, w | Counts(t, v, w)
      ensures w == v || Found(states, i + 1, w, v)
    {
      if v == a.v {
        CountedIn(states[i].nodes[a.v], a, r, w);
        CountedHeard(states, i, a, w);
      } else {
        assert Counts(states[i], v, w);
      }
      if w != v { FoundLater(states, i, i + 1, w, v); }
    }
  }

  lemma CountedIn(n: Node, a: Action, r: Node, w: Id)
    requires LogOk(n.log) && PreVoteStep(n, a, r) && r.role == PreCandidate && w in r.preVotesReceived
    ensures CountedFrom(n, a, w)
  {
    hide LogOk, LogUpToDate, PreVoteSent, HasMajority, CountedFrom;
  }

  lemma HeardSilent(states: seq<Cluster>, i: nat, v: Id)
    requires i + 1 < |states| && Heard(states, i) && Silent(states[i], states[i + 1], v)
    ensures Heard(states, i + 1)
  {
    hide Found, Had;
    forall m | m in states[i + 1].net && m.body.PreVote?
      ensures Had(states, i + 1, m.from, m.body.lastIndex, m.body.lastTerm)
    {
      HadLater(states, i, i + 1, m.from, m.body.lastIndex, m.body.lastTerm);
    }
    forall u: Id, w: Id | Found(states, i, w, u) ensures Found(states, i + 1, w, u) { FoundLater(states, i, i + 1, w, u); }
    var t := states[i + 1];
    forall u, w | Counts(t, u, w)
      ensures w == u || Found(states, i + 1, w, u)
    {
      assert Counts(states[i], u, w);
    }
  }

  lemma {:induction false} RunHeard(states: seq<Cluster>, actions: seq<Action>, i: nat)
    requires PossibleRun(states, actions) && i < |states|
    ensures Heard(states, i)
  {
    hide PossibleRun, Polled, ReadsOk, Possible, After, Heard, Handles, Silent;
    PossibleStart(states, actions);
    if i == 0 {
      NothingHeard(states);
    } else {
      RunHeard(states, actions, i - 1);
      RunReads(states, actions, i - 1);
      PossibleStep(states, actions, i - 1);
      HeardStep(states, i - 1, actions[i - 1]);
    }
  }

  lemma NothingHeard(states: seq<Cluster>)
    requires states != [] && Initial(states[0])
    ensures Heard(states, 0)
  {
    hide Unwritten, Wired, Found, Had;
  }

  lemma HeardStep(states: seq<Cluster>, i: nat, a: Action)
    requires i + 1 < |states| && Heard(states, i) && Possible(states[i], a) && states[i + 1] == After(states[i], a) && ReadsOk(states[i]) && Polled(states[i])
    ensures Heard(states, i + 1)
  {
    hide Polled, ReadsOk, Handled, After, Heard, Handles, Silent, PreVoteStep, Done;
    StepShape(states[i], a);
    if Persists(a) && HandledAt(states[i], a).Some? {
      SameIdentity(states[i], a.v);
      DoneHandles(states[i], a);
      HandledPreVotes(states[i].nodes[a.v], a, states[i].nextReadCtx[a.v]);
      HeardDone(states, i, a, HandledAt(states[i], a).value);
    } else {
      HeardSilent(states, i, a.v);
    }
  }

  /**
   * The promise of Pre-Vote: a node of a cluster of several that goes into a new term by itself had a
   * majority, itself included, each of whom had found a log that it asked with up to date.
   */
  lemma StandsPolled(states: seq<Cluster>, actions: seq<Action>, i: nat, r: Node) returns (q: set<Id>)
    requires PossibleRun(states, actions) && i < |actions| && Persists(actions[i]) && Possible(states[i], actions[i]) && HandledAt(states[i], actions[i]) == Some(r)
    requires var n := states[i].nodes[actions[i].v]; n.peers != [] && r.currentTerm > n.currentTerm && r.role != Follower
    ensures IsQuorum(states[i].core.ids, q) && forall w :: w in q ==> w == actions[i].v || Found(states, i, w, actions[i].v)
  {
    hide PossibleRun, Polled, ReadsOk, Handled, Found, Had, HasMajority, Heard;
    PossibleStep(states, actions, i);
    var s, a := states[i], actions[i];
    var n := s.nodes[a.v];
    RunHeard(states, actions, i);
    RunReads(states, actions, i);
    SameIdentity(s, a.v);
    HandledPreVotes(n, a, s.nextReadCtx[a.v]);
    q := n.preVotesReceived + {a.m.from};
    forall w | w in q
      ensures w == a.v || Found(states, i, w, a.v)
    {
      CountedHeard(states, i, a, w);
    }
    FoundKnown(states, actions, i, a.v, q);
    MajorityExact(s.core.ids, n, a.v, q);
  }

  lemma FoundKnown(states: seq<Cluster>, actions: seq<Action>, i: nat, v: Id, q: set<Id>)
    requires PossibleRun(states, actions) && i < |states| && v in states[i].nodes && forall w :: w in q ==> w == v || Found(states, i, w, v)
    ensures q <= states[i].core.ids
  {
    hide PossibleRun, Polled, Had, LogUpToDate;
    RunPolled(states, actions, i);
    PolledNode(states[i], v);
    forall w | w in q && w != v
      ensures w in states[i].core.ids
    {
      var h: nat, index: nat, term: nat :| h <= i && h < |states| && Finds(states[h], w, index, term) && Had(states, h, v, index, term);
      RunPolled(states, actions, h);
      PolledNode(states[h], w);
      SameMembers(states, actions, h, i);
    }
  }

  lemma {:induction false} SameMembers(states: seq<Cluster>, actions: seq<Action>, h: nat, i: nat)
    requires PossibleRun(states, actions) && h <= i < |states|
    ensures states[h].core.ids == states[i].core.ids
    decreases i
  {
    hide PossibleRun, Polled, Possible, After, Moves;
    if h < i {
      PossibleStart(states, actions);
      SameMembers(states, actions, h, i - 1);
      PossibleStep(states, actions, i - 1);
      RunPolled(states, actions, i - 1);
      PolledStep(states[i - 1], actions[i - 1]);
      MovesIds(states[i - 1].core, states[i].core, actions[i - 1].v);
    }
  }
}
