/** Elections keep the invariant: pre-votes, votes, candidacies and wins. */
module RaftElections {
  import opened RaftTypes
  import opened Quorums
  import opened RaftCore
  import opened RaftEvents
  import opened RaftNode
  import opened RaftCluster
  import opened RaftFrame
  import opened RaftSteps
  import opened RaftSending

  // ---------------------------------------------------------------- commits

  /** The peers that have matched up to i. */
  function Holding(peers: seq<Id>, matched: map<Id, nat>, i: nat): set<Id> {
    set p | p in peers && At(matched, p) >= i
  }

  /** The nodes a leader counts for index i, itself included. */
  function Holders(n: Node, i: nat): set<Id> { {n.id} + Holding(n.peers, n.matchIndex, i) }

  lemma HoldingGrows(peers: seq<Id>, matched: map<Id, nat>, i: nat, last: Id)
    ensures Holding(peers + [last], matched, i)
            == Holding(peers, matched, i) + if At(matched, last) >= i then {last} else {}
  {
  }

  lemma {:induction false} CountIsHolders(peers: seq<Id>, matched: map<Id, nat>, i: nat)
    requires forall j, k :: 0 <= j < k < |peers| ==> peers[j] != peers[k]
    ensures CountMatched(peers, matched, i) == |Holding(peers, matched, i)|
  {
    if peers == [] {
      assert Holding(peers, matched, i) == {};
    } else {
      var front, last := peers[..|peers| - 1], peers[|peers| - 1];
      CountIsHolders(front, matched, i);
      HoldingGrows(front, matched, i, last);
      assert peers == front + [last];
      assert last !in front;
    }
  }

  lemma PeersSize(ids: set<Id>, n: Node, v: Id)
    requires Wired(ids, n, v)
    ensures |ids| == |n.peers| + 1
  {
    CountIsHolders(n.peers, map[], 0);
    CountAll(n.peers);
    assert ids == {v} + Holding(n.peers, map[], 0);
  }

  lemma CountAll(peers: seq<Id>)
    ensures CountMatched(peers, map[], 0) == |peers|
  {
  }

  lemma HoldersQuorum(ids: set<Id>, n: Node, v: Id, i: nat)
    requires Wired(ids, n, v) && HasMajority(n, 1 + CountMatched(n.peers, n.matchIndex, i))
    ensures IsQuorum(ids, Holders(n, i))
  {
    PeersSize(ids, n, v);
    CountIsHolders(n.peers, n.matchIndex, i);
  }

  lemma CommittableChosen(c: Core, n: Node, v: Id, i: nat)
    requires NodeOk(c, n, v) && n.role == Leader && n.commitIndex < i <= LastIndex(n.log) && Committable(n, i)
    ensures Chosen(c, n.currentTerm, i)
  {
    ViewLog(c, n, v);
    assert TermIn(n.log, i) == TermAt(c.log[v], i);
    assert Own(c, n.currentTerm, i);
    var q := Holders(n, i);
    HoldersQuorum(c.ids, n, v, i);
    forall p | p in q
      ensures Acc(c, p, n.currentTerm) >= i
    {
      if p != v { assert PeerView(c, n, |c.log[v]|, p); }
    }
    assert MatchedBy(c, q, n.currentTerm, i);
  }

  /** A leader's own log is its term's leader log, and its commit view is in order. */
  lemma LeaderLog(c: Core, n: Node, v: Id)
    requires NodeOk(c, n, v) && n.role == Leader
    ensures n.currentTerm in c.tlog && v in c.log && c.tlog[n.currentTerm] == c.log[v] && CommitView(c, n, v)
  {
    hide LogView, VoteView, CandidateView, CommitView, Wired, Covered;
    NodeBasics(c, n, v);
  }

  /** A leader's view after its own commit. */
  lemma CommitViewMoves(c: Core, n: Node, v: Id, i: nat)
    requires Inv(c) && NodeOk(c, n, v) && n.role == Leader && n.commitIndex < i <= LastIndex(n.log) && Chosen(c, n.currentTerm, i)
    requires Extends(c, Commit(c, n.currentTerm, i))
    ensures CommitView(Commit(c, n.currentTerm, i), n.(commitIndex := i), v)
  {
    hide Inv, NodeOk, Extends, LogOk;
    var t := n.currentTerm;
    var d := Commit(c, t, i);
    NodeBasics(c, n, v);
    LeaderLog(c, n, v);
    ChosenStays(c, d, t, i);
    assert CommittedVia(d, t, d.log[v], i, t, i);
  }

  lemma CommitMoves(c: Core, n: Node, v: Id, i: nat)
    requires Inv(c) && NodeOk(c, n, v) && n.role == Leader && n.commitIndex < i <= LastIndex(n.log) && Chosen(c, n.currentTerm, i)
    ensures var d := Commit(c, n.currentTerm, i); Inv(d) && By(c, d, v) && NodeOk(d, n.(commitIndex := i), v)
  {
    hide Inv, By;
    var d := Commit(c, n.currentTerm, i);
    CommitKeeps(c, n.currentTerm, i);
    CommitBy(c, v, n.currentTerm, i);
    LogViewStays(c, d, n.log, n.snapshot, v);
    CommitViewMoves(c, n, v, i);
    forall p | p in n.peers
      ensures PeerView(d, n, |d.log[v]|, p)
    {
      assert PeerView(c, n, |c.log[v]|, p);
      CoveredStays(c, d, p, n.currentTerm, At(n.matchIndex, p));
    }
  }

  /** maybeAdvanceCommitIndex. */
  lemma AdvanceCommitOk(c: Core, n: Node, v: Id)
    requires Inv(c) && NodeOk(c, n, v) && OutboxOk(c, n) && n.role == Leader
    ensures var r := AdvanceCommit(n); StepOk(c, HistCommit(c, n, r), r, v)
  {
    hide Inv, By, NodeOk, Extends, MsgOk, TermIn, HasMajority;
    NodeBasics(c, n, v);
    var r := AdvanceCommit(n);
    ByRefl(c, v);
    if r.commitIndex > n.commitIndex {
      var i := r.commitIndex;
      CommittableChosen(c, n, v, i);
      CommitMoves(c, n, v, i);
      var d := Commit(c, n.currentTerm, i);
      ByExtends(c, d, v);
      OutboxStays(c, d, n);
    }
  }

  // --------------------------------------------------------------- stepping down

  lemma RaisedView(c: Core, n: Node, v: Id, t: nat)
    requires Inv(c) && VoteView(c, n.currentTerm, n.votedFor, v) && v in c.ids && t >= n.currentTerm
    ensures VoteView(Raise(c, v, t), t, BecomeFollower(n, t).votedFor, v)
  {
    hide InvGlue, InvVotes, InvBallots, InvSafe, InvKeep, InvCommitted;
  }

  lemma RaisedNode(c: Core, n: Node, v: Id, t: nat)
    requires NodeOk(c, n, v) && t >= n.currentTerm && Extends(c, Raise(c, v, t))
    requires VoteView(Raise(c, v, t), t, BecomeFollower(n, t).votedFor, v)
    ensures NodeOk(Raise(c, v, t), BecomeFollower(n, t), v)
  {
    hide Extends, CommittedBy, VoteView, LogView, Full;
    var d := Raise(c, v, t);
    LogViewStays(c, d, n.log, n.snapshot, v);
    CommittedStays(c, d, n.currentTerm, c.log[v], n.commitIndex);
  }

  lemma StepDownOk(c: Core, n: Node, v: Id, t: nat)
    requires Inv(c) && NodeOk(c, n, v) && t >= n.currentTerm
    ensures var d := Raise(c, v, t); Inv(d) && By(c, d, v) && NodeOk(d, BecomeFollower(n, t), v)
  {
    hide Inv, By, Extends, Raise, VoteView;
    NodeBasics(c, n, v);
    RaiseKeeps(c, v, t);
    RaiseBy(c, v, t);
    RaisedView(c, n, v, t);
    RaisedNode(c, n, v, t);
  }

  // ----------------------------------------------------------------- pre-votes

  lemma PreVoteOk(c: Core, n: Node, v: Id, m: Message)
    requires Inv(c) && NodeOk(c, n, v) && n.msgs == [] && m.body.PreVote? && MsgOk(c, m) && m.to == v
    ensures StepOk(c, c, AfterPreVote(n, m), v)
  {
    hide Inv, By, NodeOk;
    NodeBasics(c, n, v);
    ByRefl(c, v);
    SendOk(c, n, v, m.from, PreVoteResponse(true));
    SendOk(c, n, v, m.from, PreVoteResponse(false));
  }

  // ----------------------------------------------------------------- candidacy

  /** Nobody has stood or voted as v in a term it has not reached. */
  lemma NewTerm(c: Core, n: Node, v: Id)
    requires Inv(c) && NodeOk(c, n, v)
    ensures v != 0 && v in c.ids && v in c.term && v in c.log && c.term[v] == n.currentTerm && (n.currentTerm + 1, v) !in c.cand
    ensures forall b :: b in c.votes && b.voter == v ==> b.term != n.currentTerm + 1
  {
    hide LogView, LeaderView, CandidateView, CommitView, InvGlue, InvSafe, InvKeep, InvCommitted;
  }

  /** A new term, a candidacy and the candidate's own vote. */
  lemma StandOk(c: Core, n: Node, v: Id)
    requires Inv(c) && NodeOk(c, n, v)
    ensures var t := n.currentTerm + 1;
            var d := Vote(Stand(Raise(c, v, t), v), v, v);
            && Inv(d) && By(c, d, v) && d.log == c.log && d.term[v] == t && d.tlog == c.tlog && d.acc == c.acc
            && d.lead == c.lead
            && Ballot(t, v, v) in d.votes && (t, v) in d.cand && d.cand[(t, v)] == c.log[v]
            && VoteView(d, t, v, v) && d.committed == c.committed
  {
    hide NodeOk, Inv, By, Extends;
    var t := n.currentTerm + 1;
    NewTerm(c, n, v);
    var c1 := Raise(c, v, t);
    RaiseKeeps(c, v, t);
    RaiseBy(c, v, t);
    var c2 := Stand(c1, v);
    StandKeeps(c1, v);
    StandBy(c1, v);
    VoteKeeps(c2, v, v);
    VoteBy(c2, v, v);
    ByTrans(c, c1, c2, v);
    ByTrans(c, c2, Vote(c2, v, v), v);
  }

  function Standing(n: Node): Node {
    n.(currentTerm := n.currentTerm + 1, role := Candidate, votedFor := n.id, leaderId := 0, votesReceived := {n.id})
  }

  lemma StandingOk(c: Core, n: Node, v: Id)
    requires Inv(c) && NodeOk(c, n, v)
    ensures var d := Vote(Stand(Raise(c, v, n.currentTerm + 1), v), v, v);
            Inv(d) && By(c, d, v) && NodeOk(d, Standing(n), v)
  {
    hide Inv, By, Extends, CommittedBy, Full;
    var t := n.currentTerm + 1;
    var d := Vote(Stand(Raise(c, v, t), v), v, v);
    StandOk(c, n, v);
    ByExtends(c, d, v);
    LogViewStays(c, d, n.log, n.snapshot, v);
    CommittedStays(c, d, n.currentTerm, c.log[v], n.commitIndex);
    NotLeadingYet(c, v, t);
  }

  lemma NotLeadingYet(c: Core, v: Id, t: nat)
    requires Inv(c) && v in c.term && c.term[v] < t
    ensures !(t in c.lead && c.lead[t] == v)
  {
    if t in c.lead { LeaderReached(c, t); }
  }

  lemma LeaderReached(c: Core, t: nat)
    requires Inv(c) && t in c.tlog
    ensures c.lead[t] in c.term && c.term[c.lead[t]] >= t
  {
    VotersReached(c, t);
    var v :| v in c.elect[t];
    assert Ballot(t, v, c.lead[t]) in c.votes;
    assert (t, c.lead[t]) in c.cand;
  }

  // ---------------------------------------------------------------------- wins

  function Leading(n: Node): Node
    requires LogOk(n.log)
  {
    n.(role := Leader, leaderId := n.id,
       nextIndex := InitialNext(n.peers, LastIndex(n.log) + 1),
       matchIndex := InitialNext(n.peers, 0),
       sentIndex := map[], pendingReads := map[])
  }

  /** A majority of votes is an election nobody else can have won. */
  lemma WonElection(c: Core, n: Node, v: Id)
    requires Inv(c) && NodeOk(c, n, v) && n.role == Candidate && HasMajority(n, |n.votesReceived|)
    ensures n.currentTerm !in c.tlog && VotedFor(c, n.currentTerm, n.votesReceived, v)
  {
    PeersSize(c.ids, n, v);
    assert VotedFor(c, n.currentTerm, n.votesReceived, v);
    if n.currentTerm in c.tlog {
      OneLeader(c, n.currentTerm, v, n.votesReceived);
    }
  }

  lemma LeadingView(c: Core, n: Node, v: Id)
    requires Inv(c) && NodeOk(c, n, v) && n.currentTerm !in c.tlog
    ensures LeaderView(Elect(c, v, n.votesReceived), Leading(n), v)
  {
    var d := Elect(c, v, n.votesReceived);
    ViewLog(c, n, v);
    forall p | p in n.peers
      ensures PeerView(d, Leading(n), |d.log[v]|, p)
    {
    }
  }

  lemma ElectOk(c: Core, n: Node, v: Id)
    requires Inv(c) && NodeOk(c, n, v) && n.role == Candidate && HasMajority(n, |n.votesReceived|)
    ensures var d := Elect(c, v, n.votesReceived); Inv(d) && By(c, d, v) && NodeOk(d, Leading(n), v)
  {
    var d := Elect(c, v, n.votesReceived);
    WonElection(c, n, v);
    ElectKeeps(c, v, n.votesReceived);
    ElectBy(c, v, n.votesReceived);
    LogViewStays(c, d, n.log, n.snapshot, v);
    LeadingView(c, n, v);
    CommittedStays(c, d, n.currentTerm, c.log[v], n.commitIndex);
    assert CommitView(d, Leading(n), v) by {
      if c.committed != [] { assert LastTerm(c.committed) in c.tlog; }
    }
  }

  lemma OutboxStays(c: Core, d: Core, n: Node)
    requires Inv(c) && Inv(d) && Extends(c, d) && OutboxOk(c, n)
    ensures OutboxOk(d, n)
  {
    forall m | m in n.msgs ensures MsgOk(d, m) { MsgStays(c, d, m); }
  }

  /** becomeLeader, in a cluster of more than one. */
  lemma BecomeLeaderOk(c: Core, n: Node, v: Id)
    requires Inv(c) && NodeOk(c, n, v) && OutboxOk(c, n) && n.role == Candidate && HasMajority(n, |n.votesReceived|)
    requires n.peers != []
    ensures StepOk(c, Elect(c, v, n.votesReceived), BecomeLeader(n), v) && BecomeLeader(n).role == Leader
    ensures BecomeLeader(n).currentTerm == n.currentTerm && BecomeLeader(n).votesReceived == n.votesReceived
  {
    hide Inv, By, NodeOk;
    NodeBasics(c, n, v);
    var d := Elect(c, v, n.votesReceived);
    ElectOk(c, n, v);
    OutboxStays(c, d, n);
    SendAppendsOk(d, Leading(n), v, n.peers, 0);
  }

  /** becomeLeader, in a cluster of one: it may commit at once. */
  lemma BecomeLeaderAloneOk(c: Core, n: Node, v: Id)
    requires Inv(c) && NodeOk(c, n, v) && OutboxOk(c, n) && n.role == Candidate && HasMajority(n, |n.votesReceived|)
    requires n.peers == []
    ensures StepOk(c, HistCommit(Elect(c, v, n.votesReceived), n, BecomeLeader(n)), BecomeLeader(n), v)
  {
    hide Inv, By, NodeOk;
    NodeBasics(c, n, v);
    var d := Elect(c, v, n.votesReceived);
    ElectOk(c, n, v);
    OutboxStays(c, d, n);
    AdvanceCommitOk(d, Leading(n), v);
    StepTrans(c, d, HistCommit(d, Leading(n), BecomeLeader(n)), BecomeLeader(n), v);
  }

  lemma NoOutbox(c: Core, n: Node)
    requires n.msgs == []
    ensures OutboxOk(c, n)
  {
  }

  lemma CandidateAlone(n: Node)
    requires LogOk(n.log) && n.peers == []
    ensures Standing(n).log == n.log && Standing(n).id == n.id && Standing(n).peers == [] && Standing(n).msgs == n.msgs
    ensures Standing(n).role == Candidate && HasMajority(Standing(n), |Standing(n).votesReceived|)
    ensures var r := BecomeCandidate(n);
            r == BecomeLeader(Standing(n)) && r.role == Leader && r.currentTerm == n.currentTerm + 1 && r.votesReceived == Standing(n).votesReceived
    ensures Standing(n).commitIndex == n.commitIndex
  {
    hide CommitUpTo;
  }

  lemma CampaignAloneOk(c: Core, n: Node, v: Id)
    requires Inv(c) && NodeOk(c, n, v) && n.msgs == [] && n.peers == []
    ensures StepOk(c, HistCampaign(c, n, BecomeCandidate(n)), BecomeCandidate(n), v)
  {
    hide Inv, By, NodeOk, Extends, OutboxOk, BecomeCandidate, BecomeLeader, Standing, Commit, HasMajority;
    NodeBasics(c, n, v);
    CandidateAlone(n);
    var d := Vote(Stand(Raise(c, v, n.currentTerm + 1), v), v, v);
    var s, r := Standing(n), BecomeCandidate(n);
    StandingOk(c, n, v);
    NoOutbox(d, s);
    BecomeLeaderAloneOk(d, s, v);
    StepTrans(c, d, HistCommit(Elect(d, v, s.votesReceived), s, r), r, v);
  }

  lemma CampaignManyOk(c: Core, n: Node, v: Id)
    requires Inv(c) && NodeOk(c, n, v) && n.msgs == [] && n.peers != []
    ensures StepOk(c, HistCampaign(c, n, BecomeCandidate(n)), BecomeCandidate(n), v)
  {
    hide Inv, By, NodeOk;
    NodeBasics(c, n, v);
    var d := Vote(Stand(Raise(c, v, n.currentTerm + 1), v), v, v);
    var s := Standing(n);
    var body := RequestVote(LastIndex(n.log), LastTermOf(n.log));
    StandingOk(c, n, v);
    StandOk(c, n, v);
    BroadcastOk(d, s, v, n.peers, body);
    BroadcastSame(s, n.peers, body);
    assert HistCampaign(c, n, BecomeCandidate(n)) == d;
  }

  /** becomeCandidate. */
  lemma CampaignOk(c: Core, n: Node, v: Id)
    requires Inv(c) && NodeOk(c, n, v) && n.msgs == []
    ensures StepOk(c, HistCampaign(c, n, BecomeCandidate(n)), BecomeCandidate(n), v)
  {
    if n.peers == [] { CampaignAloneOk(c, n, v); } else { CampaignManyOk(c, n, v); }
  }

  lemma PollingOk(c: Core, n: Node, v: Id, p: Node)
    requires NodeOk(c, n, v) && n.role != Leader
    requires p == n.(role := PreCandidate, leaderId := p.leaderId, preVotesReceived := p.preVotesReceived)
    ensures NodeOk(c, p, v)
  {
  }

  /** becomePreCandidate. */
  lemma TimeoutOk(c: Core, n: Node, v: Id)
    requires Inv(c) && NodeOk(c, n, v) && n.msgs == [] && n.role != Leader
    ensures StepOk(c, HistCampaign(c, n, BecomePreCandidate(n)), BecomePreCandidate(n), v)
  {
    hide Inv, By, NodeOk;
    NodeBasics(c, n, v);
    var p := n.(role := PreCandidate, leaderId := 0, preVotesReceived := {n.id});
    PollingOk(c, n, v, p);
    if n.peers == [] {
      CampaignOk(c, p, v);
      assert HistCampaign(c, n, BecomeCandidate(p)) == HistCampaign(c, p, BecomeCandidate(p));
    } else {
      var body := PreVote(LastIndex(n.log), LastTermOf(n.log));
      ByRefl(c, v);
      BroadcastOk(c, p, v, n.peers, body);
      BroadcastSame(p, n.peers, body);
    }
  }

  lemma PreVoteResponseOk(c: Core, n: Node, v: Id, m: Message)
    requires Inv(c) && NodeOk(c, n, v) && n.msgs == [] && m.body.PreVoteResponse?
    ensures StepOk(c, HistCampaign(c, n, AfterPreVoteResponse(n, m)), AfterPreVoteResponse(n, m), v)
  {
    hide Inv, By, NodeOk;
    NodeBasics(c, n, v);
    ByRefl(c, v);
    if n.role == PreCandidate && m.body.granted {
      var p := n.(preVotesReceived := n.preVotesReceived + {m.from});
      PollingOk(c, n, v, p);
      if HasMajority(p, |p.preVotesReceived|) {
        CampaignOk(c, p, v);
        assert HistCampaign(c, n, BecomeCandidate(p)) == HistCampaign(c, p, BecomeCandidate(p));
      }
    }
  }

  // ---------------------------------------------------------------------- votes

  lemma LeaderViewKept(c: Core, d: Core, n: Node, v: Id)
    requires Extends(c, d) && LeaderView(c, n, v) && v in c.log && v in d.log && d.log[v] == c.log[v]
    requires d.tlog == c.tlog && d.lead == c.lead && (n.role == Leader ==> Acc(d, v, n.currentTerm) == Acc(c, v, n.currentTerm))
    ensures LeaderView(d, n, v)
  {
    if n.role == Leader {
      forall p | p in n.peers
        ensures PeerView(d, n, |d.log[v]|, p)
      {
        assert PeerView(c, n, |c.log[v]|, p);
        CoveredStays(c, d, p, n.currentTerm, At(n.matchIndex, p));
      }
    }
  }

  lemma GrantedNode(c: Core, n: Node, v: Id, w: Id)
    requires NodeOk(c, n, v) && (n.votedFor == 0 || n.votedFor == w) && w != 0 && Extends(c, Vote(c, v, w))
    ensures NodeOk(Vote(c, v, w), n.(votedFor := w), v)
  {
    hide Extends, CommittedBy, Covered;
    var d := Vote(c, v, w);
    LogViewStays(c, d, n.log, n.snapshot, v);
    CommittedStays(c, d, n.currentTerm, c.log[v], n.commitIndex);
    GrantView(c, n, v, w);
    LeaderViewKept(c, d, n, v);
  }

  lemma GrantView(c: Core, n: Node, v: Id, w: Id)
    requires VoteView(c, n.currentTerm, n.votedFor, v) && (n.votedFor == 0 || n.votedFor == w) && w != 0
    ensures VoteView(Vote(c, v, w), n.currentTerm, w, v)
  {
  }

  /** A granted vote, for the first time or again. */
  lemma GrantOk(c: Core, n: Node, v: Id, m: Message)
    requires Inv(c) && NodeOk(c, n, v) && m.body.RequestVote? && MsgOk(c, m) && m.to == v && m.term == n.currentTerm
    requires (n.votedFor == 0 || n.votedFor == m.from) && LogUpToDate(n, m.body.lastIndex, m.body.lastTerm)
    ensures Inv(Vote(c, v, m.from)) && By(c, Vote(c, v, m.from), v) && NodeOk(Vote(c, v, m.from), n.(votedFor := m.from), v)
  {
    hide Inv, By, Extends, Vote;
    ViewLog(c, n, v);
    VoteKeeps(c, v, m.from);
    VoteBy(c, v, m.from);
    GrantedNode(c, n, v, m.from);
  }

  lemma VoteAgain(c: Core, n: Node, v: Id)
    requires NodeOk(c, n, v) && n.votedFor != 0
    ensures Vote(c, v, n.votedFor) == c
  {
  }

  /** The history of a vote request that is not granted. */
  lemma RefuseOk(c: Core, n: Node, v: Id, w: Id)
    requires Inv(c) && NodeOk(c, n, v) && n.msgs == [] && w in c.ids && w != v
    ensures StepOk(c, if n.votedFor != 0 then Vote(c, v, n.votedFor) else c, Send(n, w, RequestVoteResponse(false)), v)
  {
    hide Inv, By, NodeOk;
    NodeBasics(c, n, v);
    ByRefl(c, v);
    if n.votedFor != 0 { VoteAgain(c, n, v); }
    SendOk(c, n, v, w, RequestVoteResponse(false));
  }

  predicate Grants(n: Node, m: Message)
    requires LogOk(n.log) && m.body.RequestVote?
  {
    m.term == n.currentTerm && (n.votedFor == 0 || n.votedFor == m.from) && LogUpToDate(n, m.body.lastIndex, m.body.lastTerm)
  }

  lemma VoteAnswer(n: Node, m: Message)
    requires LogOk(n.log) && m.body.RequestVote? && m.term <= n.currentTerm
    ensures AfterRequestVote(n, m)
            == if Grants(n, m) then Send(n.(votedFor := m.from), m.from, RequestVoteResponse(true))
               else Send(n, m.from, RequestVoteResponse(false))
  {
  }

  /** The answer of a node already at the term of the request. */
  lemma BallotOk(c: Core, n: Node, v: Id, m: Message)
    requires Inv(c) && NodeOk(c, n, v) && n.msgs == [] && m.body.RequestVote? && MsgOk(c, m) && m.to == v && m.term <= n.currentTerm
    ensures StepOk(c, HistVote(c, n, AfterRequestVote(n, m)), AfterRequestVote(n, m), v)
  {
    hide Inv, By, NodeOk, AfterRequestVote, Raise;
    NodeBasics(c, n, v);
    VoteAnswer(n, m);
    RaiseSame(c, v);
    if Grants(n, m) {
      GrantOk(c, n, v, m);
      SendOk(Vote(c, v, m.from), n.(votedFor := m.from), v, m.from, RequestVoteResponse(true));
    } else {
      RefuseOk(c, n, v, m.from);
    }
  }

  lemma RequestVoteRaised(n: Node, m: Message)
    requires LogOk(n.log) && m.body.RequestVote? && m.term > n.currentTerm
    ensures AfterRequestVote(n, m) == AfterRequestVote(BecomeFollower(n, m.term), m) && AfterRequestVote(n, m).currentTerm == m.term
  {
  }

  lemma RequestVoteOk(c: Core, n: Node, v: Id, m: Message)
    requires Inv(c) && NodeOk(c, n, v) && n.msgs == [] && m.body.RequestVote? && MsgOk(c, m) && m.to == v
    ensures StepOk(c, HistVote(c, n, AfterRequestVote(n, m)), AfterRequestVote(n, m), v)
  {
    hide Inv, By, NodeOk, Extends, OutboxOk, AfterRequestVote;
    NodeBasics(c, n, v);
    if m.term <= n.currentTerm {
      BallotOk(c, n, v, m);
    } else {
      var d := Raise(c, v, m.term);
      var f := BecomeFollower(n, m.term);
      StepDownOk(c, n, v, m.term);
      ByExtends(c, d, v);
      MsgStays(c, d, m);
      BallotOk(d, f, v, m);
      var r := AfterRequestVote(n, m);
      RequestVoteRaised(n, m);
      assert HistVote(c, n, r) == HistVote(d, f, r);
      StepTrans(c, d, HistVote(d, f, r), r, v);
    }
  }

  lemma CountVote(c: Core, n: Node, v: Id, m: Message)
    requires NodeOk(c, n, v) && n.role == Candidate && MsgOk(c, m) && m.to == v && m.term == n.currentTerm
    requires m.body.RequestVoteResponse? && m.body.granted
    ensures NodeOk(c, n.(votesReceived := n.votesReceived + {m.from}), v)
  {
  }

  lemma RequestVoteResponseOk(c: Core, n: Node, v: Id, m: Message)
    requires Inv(c) && NodeOk(c, n, v) && n.msgs == [] && m.body.RequestVoteResponse? && MsgOk(c, m) && m.to == v
    ensures StepOk(c, HistElect(c, n, AfterRequestVoteResponse(n, m)), AfterRequestVoteResponse(n, m), v)
  {
    hide Inv, By, NodeOk;
    NodeBasics(c, n, v);
    if m.term > n.currentTerm {
      StepDownOk(c, n, v, m.term);
    } else {
      RaiseSame(c, v);
      if m.term < n.currentTerm || n.role != Candidate || !m.body.granted {
        ByRefl(c, v);
      } else {
        var p := n.(votesReceived := n.votesReceived + {m.from});
        CountVote(c, n, v, m);
        if HasMajority(p, |p.votesReceived|) {
          BecomeLeaderOk(c, p, v);
        } else {
          ByRefl(c, v);
        }
      }
    }
  }
}
