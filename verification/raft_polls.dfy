/**
 * Terms, votes and elections over every possible run, whatever snapshots are
 * installed over whatever logs.  Only the part of the history that records terms,
 * votes and winners is looked at.
 */
module RaftPolls {
  import opened Bytes
  import opened RaftTypes
  import opened Quorums
  import opened RaftCore
  import opened RaftEvents
  import opened RaftNode
  import opened RaftCluster
  import opened RaftSteps
  import opened RaftRuns
  import opened RaftStable
  import opened RaftElections

  // -------------------------------------------------------------------- the invariant

  ghost predicate Polls(c: Core) {
    && c.term.Keys == c.ids && c.log.Keys == c.ids && c.lead.Keys == c.elect.Keys
    && (forall b :: b in c.votes ==> b.voter in c.ids && b.term <= c.term[b.voter])
    && (forall a, b :: a in c.votes && b in c.votes && a.term == b.term && a.voter == b.voter ==> a.candidate == b.candidate)
    && (forall t :: t in c.lead ==> VotedFor(c, t, c.elect[t], c.lead[t]) && c.lead[t] in c.ids && t <= c.term[c.lead[t]])
  }

  /** The polls only grow. */
  ghost predicate Grows(c: Core, d: Core) {
    && d.ids == c.ids && d.term.Keys == c.term.Keys && d.log.Keys == c.log.Keys
    && (forall u :: u in c.term ==> c.term[u] <= d.term[u])
    && c.votes <= d.votes
    && (forall t :: t in c.lead ==> t in d.lead && d.lead[t] == c.lead[t])
  }

  /** They grow by something node v did. */
  ghost predicate Moves(c: Core, d: Core, v: Id) {
    && Grows(c, d)
    && (forall u :: u in c.term && u != v ==> d.term[u] == c.term[u])
    && (forall b :: b in d.votes && b !in c.votes ==> b.voter == v)
    && (forall t :: t in d.lead && t !in c.lead ==> d.lead[t] == v)
  }

  ghost predicate NodePolled(c: Core, n: Node, v: Id) {
    && Wired(c.ids, n, v) && LogOk(n.log) && VoteView(c, n.currentTerm, n.votedFor, v)
    && (n.role == Candidate ==> CandidatePolled(c, n, v))
    && (n.role == Leader ==> n.currentTerm in c.lead && c.lead[n.currentTerm] == v)
  }

  ghost predicate CandidatePolled(c: Core, n: Node, v: Id) {
    && n.votesReceived <= c.ids && (forall u :: u in n.votesReceived ==> Ballot(n.currentTerm, u, v) in c.votes)
    && !(n.currentTerm in c.lead && c.lead[n.currentTerm] == v)
  }

  ghost predicate MsgPolled(c: Core, m: Message) {
    && m.from in c.ids && m.to in c.ids && m.from != m.to
    && (m.body.RequestVoteResponse? && m.body.granted ==> Ballot(m.term, m.from, m.to) in c.votes)
    && (m.body.AppendEntries? ==> EntriesOk(m.body.prevIndex, m.body.entries) && m.term in c.lead && c.lead[m.term] == m.from)
  }

  /** What a node has sent. */
  ghost predicate OutPolled(c: Core, n: Node) { forall m :: m in n.msgs ==> MsgPolled(c, m) && m.from == n.id }

  ghost predicate StepPolled(c: Core, d: Core, r: Node, v: Id) {
    Polls(d) && Moves(c, d, v) && NodePolled(d, r, v) && OutPolled(d, r)
  }

  ghost predicate DiskPolled(n: Node, d: Durable) {
    Synced(n, d) && LogOk(d.log) && d.term == n.currentTerm && d.vote == n.votedFor
  }

  ghost predicate Polled(s: Cluster) {
    && Polls(s.core) && s.nodes.Keys == s.core.ids && s.disk.Keys == s.core.ids && s.nextReadCtx.Keys == s.core.ids
    && (forall v :: v in s.nodes ==> NodePolled(s.core, s.nodes[v], v) && s.nodes[v].msgs == [] && DiskPolled(s.nodes[v], s.disk[v]))
    && (forall m :: m in s.net ==> MsgPolled(s.core, m))
  }

  // ------------------------------------------------------------------------ frames

  lemma MovesRefl(c: Core, v: Id)
    ensures Moves(c, c, v)
  {
  }

  lemma GrowsTrans(a: Core, b: Core, c: Core)
    requires Grows(a, b) && Grows(b, c)
    ensures Grows(a, c)
  {
  }

  lemma OtherPolled(c: Core, d: Core, v: Id, n: Node, u: Id)
    requires Moves(c, d, v) && u in c.ids && u != v && NodePolled(c, n, u) && Polls(c)
    ensures NodePolled(d, n, u)
  {
  }

  lemma MsgKept(c: Core, d: Core, m: Message)
    requires Grows(c, d) && MsgPolled(c, m)
    ensures MsgPolled(d, m)
  {
  }

  /** Only the parts the polls look at. */
  ghost predicate SamePolls(c: Core, d: Core) {
    && d.ids == c.ids && d.term == c.term && d.votes == c.votes && d.lead == c.lead && d.elect == c.elect && d.log.Keys == c.log.Keys
  }

  lemma SameStep(c: Core, d: Core, e: Core, r: Node, v: Id)
    requires StepPolled(c, d, r, v) && SamePolls(d, e)
    ensures StepPolled(c, e, r, v)
  {
    hide Wired, LogOk, EntriesOk, Polls, Moves;
    SamePollsKept(c, d, e, v);
  }

  lemma SamePollsKept(c: Core, d: Core, e: Core, v: Id)
    requires Polls(d) && Moves(c, d, v) && SamePolls(d, e)
    ensures Polls(e) && Moves(c, e, v)
  {
    SamePollsPolls(d, e);
    SamePollsMoves(c, d, e, v);
  }

  lemma SamePollsPolls(d: Core, e: Core)
    requires Polls(d) && SamePolls(d, e)
    ensures Polls(e)
  {
    hide IsQuorum;
    forall t | t in e.lead
      ensures VotedFor(e, t, e.elect[t], e.lead[t])
    {
      assert VotedFor(d, t, d.elect[t], d.lead[t]);
    }
  }

  lemma SamePollsMoves(c: Core, d: Core, e: Core, v: Id)
    requires Moves(c, d, v) && SamePolls(d, e)
    ensures Moves(c, e, v)
  {
  }

  // ------------------------------------------------------------------------ sending

  lemma SentEntries(log: seq<Entry>, prev: nat)
    requires LogOk(log) && Base(log) <= prev
    ensures EntriesOk(prev, EntriesIn(log, prev, LastIndex(log)))
  {
  }

  lemma AppendPolled(c: Core, n: Node, v: Id, peer: Id, ctx: nat)
    requires NodePolled(c, n, v) && n.role == Leader && peer in n.peers && OutPolled(c, n)
    ensures OutPolled(c, SendAppend(n, peer, ctx))
  {
    hide EntriesIn, EntriesOk, TermIn, LogOk;
    var prev := if At(n.sentIndex, peer) > Pred(At(n.nextIndex, peer)) then At(n.sentIndex, peer) else Pred(At(n.nextIndex, peer));
    if Pred(At(n.nextIndex, peer)) >= Base(n.log) { SentEntries(n.log, prev); }
  }

  lemma {:induction false} AppendsPolled(c: Core, n: Node, v: Id, to: seq<Id>, ctx: nat)
    requires NodePolled(c, n, v) && n.role == Leader && OutPolled(c, n) && forall i :: 0 <= i < |to| ==> to[i] in n.peers
    ensures OutPolled(c, SendAppends(n, to, ctx)) && NodePolled(c, SendAppends(n, to, ctx), v)
    decreases |to|
  {
    hide SendAppend, OutPolled;
    SendAppendsSame(n, to, ctx);
    if to != [] {
      AppendPolled(c, n, v, to[0], ctx);
      SendAppendsSame(n, [to[0]], ctx);
      assert [to[0]][1..] == [];
      var m := SendAppend(n, to[0], ctx);
      assert SendAppends(n, [to[0]], ctx) == SendAppends(m, [], ctx) == m;
      AppendsPolled(c, m, v, to[1..], ctx);
    }
  }

  lemma {:induction false} BroadcastPolled(c: Core, n: Node, v: Id, to: seq<Id>, body: Body)
    requires NodePolled(c, n, v) && OutPolled(c, n) && !body.AppendEntries? && !body.RequestVoteResponse?
    requires forall i :: 0 <= i < |to| ==> to[i] in n.peers
    ensures OutPolled(c, Broadcast(n, to, body)) && NodePolled(c, Broadcast(n, to, body), v)
    decreases |to|
  {
    BroadcastSame(n, to, body);
    if to != [] { BroadcastPolled(c, Send(n, to[0], body), v, to[1..], body); }
  }

  lemma SendPolled(c: Core, d: Core, n: Node, v: Id, to: Id, body: Body)
    requires StepPolled(c, d, n, v) && to in c.ids && to != v && !body.AppendEntries?
    requires body.RequestVoteResponse? && body.granted ==> Ballot(n.currentTerm, v, to) in d.votes
    ensures StepPolled(c, d, Send(n, to, body), v)
  {
  }

  // --------------------------------------------------------------- following and raising

  /** The fields the polls look at. */
  predicate SameSeat(n: Node, r: Node) {
    && r.id == n.id && r.peers == n.peers && r.role == n.role && r.currentTerm == n.currentTerm && r.votedFor == n.votedFor
    && r.votesReceived == n.votesReceived
  }

  lemma SeatPolled(c: Core, d: Core, n: Node, r: Node, v: Id)
    requires StepPolled(c, d, n, v) && SameSeat(n, r) && LogOk(r.log) && r.msgs == n.msgs
    ensures StepPolled(c, d, r, v)
  {
  }

  lemma RestPolled(c: Core, n: Node, v: Id)
    requires Polls(c) && NodePolled(c, n, v) && n.msgs == []
    ensures StepPolled(c, c, n, v)
  {
  }

  /** A node that follows, whether or not it moves to a higher term. */
  lemma FollowPolled(c: Core, n: Node, v: Id, t: nat)
    requires Polls(c) && NodePolled(c, n, v) && n.msgs == [] && t >= n.currentTerm
    ensures StepPolled(c, Raise(c, v, t), BecomeFollower(n, t), v)
  {
    hide Polls, Moves;
    RaisePolls(c, v, t);
    FollowSeat(c, n, v, t);
  }

  lemma RaisePolls(c: Core, v: Id, t: nat)
    requires Polls(c) && v in c.ids && c.term[v] <= t
    ensures Polls(Raise(c, v, t)) && Moves(c, Raise(c, v, t), v)
  {
  }

  lemma FollowSeat(c: Core, n: Node, v: Id, t: nat)
    requires Polls(c) && NodePolled(c, n, v) && t >= n.currentTerm
    ensures v in c.ids && c.term[v] <= t && NodePolled(Raise(c, v, t), BecomeFollower(n, t), v)
  {
  }

  lemma RaiseNothing(c: Core, n: Node, v: Id)
    requires NodePolled(c, n, v)
    ensures Raise(c, v, n.currentTerm) == c && n.id == v
  {
    assert c.term[v := c.term[v]] == c.term;
  }

  // --------------------------------------------------------------------- elections

  lemma CountedQuorum(c: Core, n: Node, v: Id, q: set<Id>)
    requires Wired(c.ids, n, v) && q <= c.ids && HasMajority(n, |q|)
    ensures IsQuorum(c.ids, q)
  {
    PeersSize(c.ids, n, v);
  }

  /** A candidate that wins is the first to win its term. */
  lemma FirstWinner(c: Core, n: Node, v: Id)
    requires Polls(c) && NodePolled(c, n, v) && n.role == Candidate && IsQuorum(c.ids, n.votesReceived)
    ensures n.currentTerm !in c.lead
  {
    if n.currentTerm in c.lead {
      var u := QuorumsMeet(c.ids, n.votesReceived, c.elect[n.currentTerm]);
    }
  }

  lemma WinPolled(c: Core, n: Node, v: Id)
    requires Polls(c) && NodePolled(c, n, v) && n.role == Candidate && HasMajority(n, |n.votesReceived|) && OutPolled(c, n)
    ensures v in c.term && v in c.log && StepPolled(c, Elect(c, v, n.votesReceived), n.(role := Leader), v)
  {
    hide Polls, Moves, LogOk, EntriesOk;
    CountedQuorum(c, n, v, n.votesReceived);
    FirstWinner(c, n, v);
    ElectPolls(c, n, v);
    OutKept(c, Elect(c, v, n.votesReceived), n, v);
  }

  lemma OutKept(c: Core, d: Core, n: Node, v: Id)
    requires Moves(c, d, v) && OutPolled(c, n)
    ensures OutPolled(d, n) && Grows(c, d)
  {
    forall m | m in n.msgs
      ensures MsgPolled(d, m)
    {
      MsgKept(c, d, m);
    }
  }

  lemma ElectPolls(c: Core, n: Node, v: Id)
    requires Polls(c) && NodePolled(c, n, v) && n.role == Candidate && IsQuorum(c.ids, n.votesReceived) && n.currentTerm !in c.lead
    ensures v in c.term && v in c.log && c.term[v] == n.currentTerm
    ensures Polls(Elect(c, v, n.votesReceived)) && Moves(c, Elect(c, v, n.votesReceived), v)
  {
  }

  lemma LeaderPolled(c: Core, d: Core, n: Node, v: Id)
    requires StepPolled(c, d, n.(role := Leader), v)
    ensures StepPolled(c, d, BecomeLeader(n), v)
  {
    hide Polls, Moves, NodePolled, SendAppends, CommitUpTo, InitialNext, OutPolled;
    var e := n.(role := Leader);
    PolledLog(d, e, v);
    var l := n.(role := Leader, leaderId := n.id, nextIndex := InitialNext(n.peers, LastIndex(n.log) + 1),
                matchIndex := InitialNext(n.peers, 0), sentIndex := map[], pendingReads := map[]);
    SeatPolled(c, d, e, l, v);
    if n.peers == [] { SeatPolled(c, d, e, AdvanceCommit(l), v); } else { AppendsPolled(d, l, v, n.peers, 0); }
  }

  lemma PolledLog(c: Core, n: Node, v: Id)
    requires NodePolled(c, n, v)
    ensures LogOk(n.log) && n.id == v && v in c.ids && 0 !in c.ids
    ensures v in c.term && c.term[v] == n.currentTerm && (Polls(c) ==> v in c.log)
  {
  }

  /** Standing: a new term, and the candidate's own vote. */
  lemma StandPolled(c: Core, n: Node, v: Id)
    requires Polls(c) && NodePolled(c, n, v) && n.msgs == []
    ensures v in c.term && v in c.log
    ensures var d := Vote(Stand(Raise(c, v, n.currentTerm + 1), v), v, v); StepPolled(c, d, Standing(n), v)
  {
    hide Polls, Moves;
    StandPolls(c, n, v);
    StandSeat(c, n, v);
  }

  lemma StandPolls(c: Core, n: Node, v: Id)
    requires Polls(c) && NodePolled(c, n, v)
    ensures v in c.term && v in c.log && c.term[v] == n.currentTerm
    ensures var d := Vote(Stand(Raise(c, v, n.currentTerm + 1), v), v, v); Polls(d) && Moves(c, d, v)
  {
    var c1 := Raise(c, v, n.currentTerm + 1);
    RaisePolls(c, v, n.currentTerm + 1);
    VotePolls(c1, v, v);
    var d := Vote(Stand(c1, v), v, v);
    SamePollsKept(c1, Vote(c1, v, v), d, v);
    MovesTrans(c, c1, d, v);
  }

  lemma MovesTrans(a: Core, b: Core, c: Core, v: Id)
    requires Moves(a, b, v) && Moves(b, c, v)
    ensures Moves(a, c, v)
  {
  }

  lemma VotePolls(c: Core, v: Id, w: Id)
    requires Polls(c) && v in c.ids && forall b :: b in c.votes && b.voter == v && b.term == c.term[v] ==> b.candidate == w
    ensures v in c.term && Polls(Vote(c, v, w)) && Moves(c, Vote(c, v, w), v)
  {
  }

  lemma StandSeat(c: Core, n: Node, v: Id)
    requires Polls(c) && NodePolled(c, n, v)
    ensures v in c.term && v in c.log
    ensures NodePolled(Vote(Stand(Raise(c, v, n.currentTerm + 1), v), v, v), Standing(n), v)
  {
  }

  lemma CampaignPolled(c: Core, n: Node, v: Id)
    requires Polls(c) && NodePolled(c, n, v) && n.msgs == []
    ensures v in c.term && v in c.log && n.id == v
    ensures var r := BecomeCandidate(n); StepPolled(c, HistCampaign(c, n, r), r, v) && r.currentTerm == n.currentTerm + 1
  {
    hide Polls, Moves, NodePolled, OutPolled, Broadcast, BecomeLeader, HistCommit;
    StandPolled(c, n, v);
    PolledLog(c, n, v);
    var s, d := Standing(n), Vote(Stand(Raise(c, v, n.currentTerm + 1), v), v, v);
    if n.peers == [] {
      AloneWins(c, d, s, v);
      LeaderSeat(s);
      var e := Elect(d, v, s.votesReceived);
      CommitSame(e, n, BecomeLeader(s));
      SameStep(c, e, HistCommit(e, n, BecomeLeader(s)), BecomeLeader(s), v);
    } else {
      BroadcastPolled(d, s, v, n.peers, RequestVote(LastIndex(n.log), LastTermOf(n.log)));
      BroadcastSame(s, n.peers, RequestVote(LastIndex(n.log), LastTermOf(n.log)));
    }
  }

  lemma CommitSame(c: Core, n: Node, r: Node)
    ensures SamePolls(c, HistCommit(c, n, r))
  {
  }

  lemma LeaderSeat(n: Node)
    requires LogOk(n.log)
    ensures BecomeLeader(n).role == Leader && BecomeLeader(n).currentTerm == n.currentTerm && BecomeLeader(n).votesReceived == n.votesReceived
  {
    hide SendAppends, CommitUpTo;
    SendAppendsSame(n.(role := Leader, leaderId := n.id, nextIndex := InitialNext(n.peers, LastIndex(n.log) + 1),
                       matchIndex := InitialNext(n.peers, 0), sentIndex := map[], pendingReads := map[]), n.peers, 0);
  }

  lemma AloneWins(c: Core, d: Core, s: Node, v: Id)
    requires StepPolled(c, d, s, v) && s.role == Candidate && s.peers == [] && |s.votesReceived| == 1
    ensures v in d.term && v in d.log && StepPolled(c, Elect(d, v, s.votesReceived), BecomeLeader(s), v)
  {
    hide BecomeLeader;
    WinPolled(d, s, v);
    GrowsTrans(c, d, Elect(d, v, s.votesReceived));
    LeaderPolled(c, Elect(d, v, s.votesReceived), s, v);
  }

  lemma TimeoutPolled(c: Core, n: Node, v: Id)
    requires Polls(c) && NodePolled(c, n, v) && n.msgs == []
    ensures v in c.term && v in c.log && n.id == v
    ensures var r := BecomePreCandidate(n); StepPolled(c, HistCampaign(c, n, r), r, v)
  {
    hide Polls, Moves, OutPolled, Broadcast, BecomeCandidate, HistCommit, VoteView;
    PolledLog(c, n, v);
    var p := n.(role := PreCandidate, leaderId := 0, preVotesReceived := {n.id});
    RestPolled(c, n, v);
    assert NodePolled(c, p, v);
    CampaignPolled(c, p, v);
    if n.peers != [] {
      RestPolled(c, p, v);
      BroadcastPolled(c, p, v, n.peers, PreVote(LastIndex(n.log), LastTermOf(n.log)));
      BroadcastSame(p, n.peers, PreVote(LastIndex(n.log), LastTermOf(n.log)));
    } else {
      SameCampaign(c, n, p);
    }
  }

  /** A campaign looks only at the id and the two terms of the node it starts from. */
  lemma SameCampaign(c: Core, n: Node, p: Node)
    requires n.id in c.term && n.id in c.log && p.id == n.id && p.currentTerm == n.currentTerm && p.commitIndex == n.commitIndex && LogOk(p.log)
    ensures HistCampaign(c, n, BecomeCandidate(p)) == HistCampaign(c, p, BecomeCandidate(p))
  {
    hide BecomeCandidate, Elect, Vote, Stand, Raise;
  }

  lemma PreVoteResponsePolled(c: Core, n: Node, v: Id, m: Message)
    requires Polls(c) && NodePolled(c, n, v) && n.msgs == [] && m.body.PreVoteResponse?
    ensures v in c.term && v in c.log && n.id == v
    ensures var r := AfterPreVoteResponse(n, m); StepPolled(c, HistCampaign(c, n, r), r, v)
  {
    hide Polls, Moves, OutPolled, BecomeCandidate, HistCommit, VoteView, HasMajority;
    PolledLog(c, n, v);
    RestPolled(c, n, v);
    var p := n.(preVotesReceived := n.preVotesReceived + {m.from});
    assert NodePolled(c, p, v);
    RestPolled(c, p, v);
    CampaignPolled(c, p, v);
    SameCampaign(c, n, p);
  }

  // ------------------------------------------------------------------------- votes

  /** The answer to a vote request, spelled out. */
  lemma RequestVotePolled(c: Core, n: Node, v: Id, m: Message)
    requires Polls(c) && NodePolled(c, n, v) && n.msgs == [] && m.body.RequestVote? && MsgPolled(c, m) && m.to == v
    ensures v in c.term && v in c.log && n.id == v
    ensures var r := AfterRequestVote(n, m); StepPolled(c, HistVote(c, n, r), r, v)
  {
    hide Polls, Moves, OutPolled, LogUpToDate, VoteView, NodePolled, AfterRequestVote, HistVote, Vote, Raise, StepPolled;
    PolledLog(c, n, v);
    var f := if m.term > n.currentTerm then BecomeFollower(n, m.term) else n;
    var d := Raise(c, v, f.currentTerm);
    AskedPolled(c, n, v, m);
    SteppedLog(c, d, f, v);
    var granted := m.term >= f.currentTerm && (f.votedFor == 0 || f.votedFor == m.from) && LogUpToDate(f, m.body.lastIndex, m.body.lastTerm);
    var w := if granted then m.from else f.votedFor;
    GrantPolled(c, d, f, v, w);
    VoteAnswered(c, n, m, f, w, granted);
    SendPolled(c, if w != 0 then Vote(d, v, w) else d, f.(votedFor := w), v, m.from, RequestVoteResponse(granted));
  }

  lemma SteppedLog(c: Core, d: Core, f: Node, v: Id)
    requires StepPolled(c, d, f, v)
    ensures LogOk(f.log) && f.id == v && v in d.term && d.ids == c.ids && Polls(d)
  {
    hide Polls;
  }

  lemma AskedPolled(c: Core, n: Node, v: Id, m: Message)
    requires Polls(c) && NodePolled(c, n, v) && n.msgs == []
    ensures var f := if m.term > n.currentTerm then BecomeFollower(n, m.term) else n; StepPolled(c, Raise(c, v, f.currentTerm), f, v)
  {
    hide Polls, Moves, OutPolled, VoteView;
    if m.term > n.currentTerm {
      FollowPolled(c, n, v, m.term);
    } else {
      RestPolled(c, n, v);
      RaiseNothing(c, n, v);
    }
  }

  lemma VoteAnswered(c: Core, n: Node, m: Message, f: Node, w: Id, granted: bool)
    requires LogOk(n.log) && m.body.RequestVote? && n.id in c.term && n.id in c.log
    requires f == (if m.term > n.currentTerm then BecomeFollower(n, m.term) else n) && w == (if granted then m.from else f.votedFor)
    requires granted == (m.term >= f.currentTerm && (f.votedFor == 0 || f.votedFor == m.from) && LogUpToDate(f, m.body.lastIndex, m.body.lastTerm))
    ensures AfterRequestVote(n, m) == Send(f.(votedFor := w), m.from, RequestVoteResponse(granted))
    ensures var d := Raise(c, n.id, f.currentTerm); HistVote(c, n, AfterRequestVote(n, m)) == if w != 0 then Vote(d, n.id, w) else d
  {
    hide LogUpToDate;
  }

  /** Writing down the vote a node holds, old or new. */
  lemma GrantPolled(c: Core, d: Core, f: Node, v: Id, w: Id)
    requires StepPolled(c, d, f, v) && (f.votedFor == 0 || f.votedFor == w) && (w == 0 ==> f.votedFor == 0) && f.msgs == []
    ensures v in d.term
    ensures var e := if w != 0 then Vote(d, v, w) else d;
            StepPolled(c, e, f.(votedFor := w), v) && (w != 0 ==> Ballot(f.currentTerm, v, w) in e.votes)
  {
    hide Polls, Moves;
    PolledLog(d, f, v);
    if w != 0 {
      var e := Vote(d, v, w);
      VoteFree(d, f, v, w);
      VotePolls(d, v, w);
      MovesTrans(c, d, e, v);
      VoteSeat(d, f, v, w);
    }
  }

  lemma VoteFree(d: Core, f: Node, v: Id, w: Id)
    requires NodePolled(d, f, v) && (f.votedFor == 0 || f.votedFor == w)
    ensures v in d.term && forall b :: b in d.votes && b.voter == v && b.term == d.term[v] ==> b.candidate == w
  {
  }

  lemma VoteSeat(d: Core, f: Node, v: Id, w: Id)
    requires NodePolled(d, f, v) && (f.votedFor == 0 || f.votedFor == w) && w != 0
    ensures v in d.term && NodePolled(Vote(d, v, w), f.(votedFor := w), v) && d.term[v] == f.currentTerm
  {
  }

  lemma VoteResponsePolled(c: Core, n: Node, v: Id, m: Message)
    requires Polls(c) && NodePolled(c, n, v) && n.msgs == [] && m.body.RequestVoteResponse? && MsgPolled(c, m) && m.to == v
    ensures v in c.term && v in c.log && n.id == v
    ensures var r := AfterRequestVoteResponse(n, m); StepPolled(c, HistElect(c, n, r), r, v)
  {
    hide Polls, Moves, OutPolled, BecomeLeader, HasMajority, VoteView;
    PolledLog(c, n, v);
    RestPolled(c, n, v);
    RaiseNothing(c, n, v);
    if m.term > n.currentTerm {
      FollowPolled(c, n, v, m.term);
    } else if m.term == n.currentTerm && n.role == Candidate && m.body.granted {
      var k := n.(votesReceived := n.votesReceived + {m.from});
      assert NodePolled(c, k, v);
      RestPolled(c, k, v);
      if HasMajority(k, |k.votesReceived|) {
        WinPolled(c, k, v);
        LeaderPolled(c, Elect(c, v, k.votesReceived), k, v);
        LeaderSeat(k);
      }
    }
  }

  // ------------------------------------------------------------- replication and snapshots

  lemma MatchSame(c: Core, n: Node, r: Node, k: nat)
    requires n.id in c.term && n.id in c.log
    ensures SamePolls(Raise(c, n.id, r.currentTerm), HistMatch(c, n, r, k))
  {
  }

  lemma PreVotePolled(c: Core, n: Node, v: Id, m: Message)
    requires Polls(c) && NodePolled(c, n, v) && n.msgs == [] && m.body.PreVote? && MsgPolled(c, m) && m.to == v
    ensures StepPolled(c, c, AfterPreVote(n, m), v)
  {
    hide Polls, Moves, OutPolled, LogUpToDate, StepPolled;
    PolledLog(c, n, v);
    RestPolled(c, n, v);
    SendPolled(c, c, n, v, m.from, PreVoteResponse(false));
    SendPolled(c, c, n, v, m.from, PreVoteResponse(true));
  }

  /** A message of a leader, accepted or not: the receiver follows, and answers. */
  lemma AppendEntriesPolled(c: Core, n: Node, v: Id, m: Message)
    requires Polls(c) && NodePolled(c, n, v) && n.msgs == [] && m.body.AppendEntries? && MsgPolled(c, m) && m.to == v && AfterAppend(n, m).Some?
    ensures v in c.term && v in c.log && n.id == v
    ensures var r := AfterAppend(n, m).value; StepPolled(c, Raise(c, v, r.currentTerm), r, v)
  {
    hide Polls, Moves, OutPolled, StepPolled, Merge, AfterAppend, TermIn, LogOk, NodePolled;
    PolledLog(c, n, v);
    if m.term < n.currentTerm {
      StaleAnswer(n, m);
      RestPolled(c, n, v);
      RaiseNothing(c, n, v);
      SendPolled(c, c, n, v, m.from, AppendEntriesResponse(false, 0, 0));
    } else {
      AppendAnswer(n, m);
      AppendLogOk(n, m);
      var f, d := BecomeFollower(n, m.term), Raise(c, v, m.term);
      var g := f.(leaderId := m.from);
      FollowPolled(c, n, v, m.term);
      SeatPolled(c, d, f, g, v);
      if Accepts(n, m) {
        SeatPolled(c, d, f, MergedNode(g, m), v);
        SendPolled(c, d, MergedNode(g, m), v, m.from, AppendEntriesResponse(true, m.body.prevIndex + |m.body.entries|, m.body.readCtx));
      } else {
        SendPolled(c, d, g, v, m.from, AppendEntriesResponse(false, 0, m.body.readCtx));
      }
    }
  }

  lemma InstallPolled(c: Core, n: Node, v: Id, m: Message)
    requires Polls(c) && NodePolled(c, n, v) && n.msgs == [] && m.body.InstallSnapshot? && MsgPolled(c, m) && m.to == v
    ensures v in c.term && v in c.log && n.id == v
    ensures var r := AfterInstall(n, m); StepPolled(c, Raise(c, v, r.currentTerm), r, v)
  {
    hide Polls, Moves, OutPolled, StepPolled, AfterInstall, NodePolled;
    PolledLog(c, n, v);
    InstallAnswer(n, m);
    if m.term < n.currentTerm {
      RestPolled(c, n, v);
      RaiseNothing(c, n, v);
      SendPolled(c, c, n, v, m.from, InstallSnapshotResponse(Base(n.log)));
    } else {
      var f, d := BecomeFollower(n, m.term), Raise(c, v, m.term);
      var g := f.(leaderId := m.from);
      FollowPolled(c, n, v, m.term);
      SeatPolled(c, d, f, g, v);
      SendPolled(c, d, g, v, m.from, InstallSnapshotResponse(Base(n.log)));
      SeatPolled(c, d, f, InstalledNode(g, m), v);
      SendPolled(c, d, InstalledNode(g, m), v, m.from, InstallSnapshotResponse(m.body.snap.lastIndex));
    }
  }

  /** The node with an acknowledgement counted, before it sends anything. */
  function Acked(n: Node, m: Message): Node
    requires m.body.AppendEntriesResponse?
  {
    if m.body.readCtx != 0 then AckRead(n, m.body.readCtx, m.from) else n
  }

  lemma AppendResponsePolled(c: Core, n: Node, v: Id, m: Message)
    requires Polls(c) && NodePolled(c, n, v) && n.msgs == [] && m.body.AppendEntriesResponse? && MsgPolled(c, m) && m.to == v
    ensures v in c.term && v in c.log && n.id == v
    ensures var r := AfterAppendResponse(n, m); StepPolled(c, Raise(c, v, r.currentTerm), r, v)
  {
    hide Polls, Moves, OutPolled, StepPolled, NodePolled, AckRead, SendAppend, CommitUpTo;
    PolledLog(c, n, v);
    RestPolled(c, n, v);
    RaiseNothing(c, n, v);
    if m.term > n.currentTerm {
      FollowPolled(c, n, v, m.term);
    } else if m.term == n.currentTerm && n.role == Leader {
      AckReadFields(n, m.body.readCtx, m.from);
      if m.body.success {
        SeatPolled(c, c, n, AfterAppendResponse(n, m), v);
      } else {
        RejectedPolled(c, n, v, m);
      }
    }
  }

  lemma RejectedPolled(c: Core, n: Node, v: Id, m: Message)
    requires Polls(c) && NodePolled(c, n, v) && n.msgs == [] && m.body.AppendEntriesResponse? && MsgPolled(c, m) && m.to == v
    requires m.term == n.currentTerm && n.role == Leader && !m.body.success
    ensures LogOk(n.log) && StepPolled(c, c, AfterAppendResponse(n, m), v) && AfterAppendResponse(n, m).currentTerm == n.currentTerm
  {
    hide Polls, Moves, OutPolled, AckRead, SendAppend, VoteView;
    PolledLog(c, n, v);
    RestPolled(c, n, v);
    AckReadFields(n, m.body.readCtx, m.from);
    var a := Acked(n, m);
    var b := a.(nextIndex := if At(a.nextIndex, m.from) > 1 then a.nextIndex[m.from := At(a.nextIndex, m.from) - 1] else a.nextIndex,
                sentIndex := a.sentIndex[m.from := 0]);
    SeatPolled(c, c, n, b, v);
    AppendsPolled(c, b, v, [m.from], 0);
    SendAppendsSame(b, [m.from], 0);
    assert [m.from][1..] == [];
    assert SendAppends(b, [m.from], 0) == SendAppends(SendAppend(b, m.from, 0), [], 0);
  }

  lemma InstallResponsePolled(c: Core, n: Node, v: Id, m: Message)
    requires Polls(c) && NodePolled(c, n, v) && n.msgs == [] && m.body.InstallSnapshotResponse?
    ensures v in c.term && v in c.log && n.id == v
    ensures var r := AfterInstallResponse(n, m); StepPolled(c, Raise(c, v, r.currentTerm), r, v)
  {
    hide Polls, Moves, OutPolled, StepPolled, NodePolled, CommitUpTo;
    PolledLog(c, n, v);
    RestPolled(c, n, v);
    RaiseNothing(c, n, v);
    if m.term > n.currentTerm {
      FollowPolled(c, n, v, m.term);
    } else if m.term == n.currentTerm && n.role == Leader {
      SeatPolled(c, c, n, AfterInstallResponse(n, m), v);
    }
  }

  // ----------------------------------------------------------------- the other handlers

  lemma ReadPolled(c: Core, n: Node, v: Id, ctx: nat)
    requires Polls(c) && NodePolled(c, n, v) && n.msgs == []
    ensures StepPolled(c, c, AfterReadRequest(n, ctx), v) && StepPolled(c, c, AfterHeartbeat(n), v)
  {
    hide Polls, Moves, SendAppends, VoteView;
    RestPolled(c, n, v);
    if n.role == Leader {
      AppendsPolled(c, n, v, n.peers, 0);
      var p := n.(pendingReads := n.pendingReads[ctx := PendingRead(n.commitIndex, {n.id})]);
      AppendsPolled(c, p, v, n.peers, ctx);
    }
  }

  lemma ProposePolled(c: Core, n: Node, v: Id, datas: seq<Bytes>)
    requires Polls(c) && NodePolled(c, n, v) && n.msgs == []
    ensures v in c.term && v in c.log && n.id == v
    ensures var r := AfterPropose(n, datas); StepPolled(c, HistAppend(c, n, r), r, v)
  {
    hide Polls, Moves, SendAppends, VoteView, HistCommit, CommitUpTo, Append, NewEntries;
    PolledLog(c, n, v);
    RestPolled(c, n, v);
    var r := AfterPropose(n, datas);
    if n.role == Leader {
      var es := NewEntries(n.currentTerm, LastIndex(n.log) + 1, datas);
      var p := n.(log := n.log + es);
      NewLogOk(n.log, n.currentTerm, datas);
      SeatPolled(c, c, n, p, v);
      if n.peers == [] { SeatPolled(c, c, p, AdvanceCommit(p), v); } else { AppendsPolled(c, p, v, n.peers, 0); }
      if |n.log| <= |r.log| {
        AppendSame(c, v, r.log[|n.log|..]);
        CommitSame(Append(c, v, r.log[|n.log|..]), n, r);
        SameStep(c, c, HistAppend(c, n, r), r, v);
      }
    }
  }

  lemma AppendSame(c: Core, v: Id, es: seq<Entry>)
    requires v in c.term && v in c.log
    ensures SamePolls(c, Append(c, v, es))
  {
  }

  lemma DeliveredPolled(c: Core, n: Node, v: Id, m: Message)
    requires Polls(c) && NodePolled(c, n, v) && n.msgs == [] && MsgPolled(c, m) && m.to == v && LogOk(n.log) && AfterStep(n, m).Some?
    ensures v in c.term && v in c.log && n.id == v
    ensures var r := AfterStep(n, m).value; StepPolled(c, History(c, n, r, Deliver(v, m)), r, v)
  {
    hide Polls, Moves, OutPolled, StepPolled, NodePolled, AfterAppend, AfterInstall, AfterAppendResponse, AfterInstallResponse,
         AfterPreVote, AfterPreVoteResponse, AfterRequestVote, AfterRequestVoteResponse;
    hide HistCampaign, HistVote, HistElect, HistMatch, HistCommit, Accepts, Raise, LogOk;
    PolledLog(c, n, v);
    var r := AfterStep(n, m).value;
    var d := Raise(c, v, r.currentTerm);
    StepLogOk(n, m);
    match m.body
    case PreVote(_, _) => PreVotePolled(c, n, v, m);
    case PreVoteResponse(_) => PreVoteResponsePolled(c, n, v, m);
    case RequestVote(_, _) => RequestVotePolled(c, n, v, m);
    case RequestVoteResponse(_) => VoteResponsePolled(c, n, v, m);
    case AppendEntries(prev, _, es, _, _) =>
      AppendEntriesPolled(c, n, v, m);
      MatchSame(c, n, r, prev + |es|);
      if Accepts(n, m) { SameStep(c, d, HistMatch(c, n, r, prev + |es|), r, v); }
    case AppendEntriesResponse(_, _, _) =>
      AppendResponsePolled(c, n, v, m);
      CommitSame(d, n, r);
      SameStep(c, d, HistCommit(d, n, r), r, v);
    case InstallSnapshot(_) =>
      InstallPolled(c, n, v, m);
      MatchSame(c, n, r, Base(r.log));
      SameStep(c, d, HistMatch(c, n, r, Base(r.log)), r, v);
    case InstallSnapshotResponse(_) =>
      InstallResponsePolled(c, n, v, m);
      CommitSame(d, n, r);
      SameStep(c, d, HistCommit(d, n, r), r, v);
  }

  lemma PolledNode(s: Cluster, v: Id)
    requires Polled(s) && v in s.nodes
    ensures Polls(s.core) && NodePolled(s.core, s.nodes[v], v) && s.nodes[v].msgs == [] && v in s.disk && DiskPolled(s.nodes[v], s.disk[v])
    ensures v in s.nextReadCtx && v in s.core.ids
  {
  }

  lemma PolledMsg(s: Cluster, m: Message)
    requires Polled(s) && m in s.net
    ensures MsgPolled(s.core, m)
  {
  }

  /** Any handler. */
  lemma ActPolled(c: Core, n: Node, v: Id, a: Action, ctx: nat)
    requires Polls(c) && NodePolled(c, n, v) && n.msgs == [] && LogOk(n.log) && Persists(a) && a.v == v
    requires a.Deliver? ==> MsgPolled(c, a.m) && a.m.to == v
    requires Handled(n, a, ctx).Some?
    ensures v in c.term && v in c.log && n.id == v
    ensures var r := Handled(n, a, ctx).value; StepPolled(c, History(c, n, r, a), r, v)
  {
    hide Polls, StepPolled, NodePolled, AfterStep, BecomePreCandidate, AfterHeartbeat, AfterPropose, AfterReadRequest, LogOk;
    hide HistCampaign, HistAppend, HistVote, HistElect, HistMatch, HistCommit;
    PolledLog(c, n, v);
    match a
    case Timeout(_) => if n.role == Leader { IdlePolled(c, n, v); } else { TimeoutPolled(c, n, v); }
    case Heartbeat(_) => ReadPolled(c, n, v, 0);
    case Propose(_, datas) => ProposePolled(c, n, v, datas);
    case Read(_) => ReadPolled(c, n, v, ctx);
    case Deliver(_, m) => DeliveredPolled(c, n, v, m);
  }

  lemma PolledFormed(s: Cluster)
    requires Polled(s)
    ensures Formed(s)
  {
    hide Polls, VoteView, Wired, Synced, CandidatePolled;
    forall v | v in s.nodes
      ensures LogOk(s.nodes[v].log) && LogOk(s.disk[v].log) && s.nodes[v].id in s.core.term && s.nodes[v].id in s.core.log
    {
      PolledNode(s, v);
      PolledLog(s.core, s.nodes[v], v);
    }
  }

  lemma HandledPolled(s: Cluster, a: Action)
    requires Possible(s, a) && Persists(a) && HandledAt(s, a).Some? && Polled(s)
    ensures var r := HandledAt(s, a).value; StepPolled(s.core, History(s.core, s.nodes[a.v], r, a), r, a.v)
  {
    hide Polls, StepPolled, NodePolled, DiskPolled, MsgPolled, Handled, History, Formed, Polled;
    PolledNode(s, a.v);
    PolledLog(s.core, s.nodes[a.v], a.v);
    if a.Deliver? { PolledMsg(s, a.m); }
    ActPolled(s.core, s.nodes[a.v], a.v, a, s.nextReadCtx[a.v]);
  }

  lemma IdlePolled(c: Core, n: Node, v: Id)
    requires Polls(c) && NodePolled(c, n, v) && n.msgs == []
    ensures v in c.term && v in c.log && n.id == v && StepPolled(c, HistCampaign(c, n, n), n, v)
  {
    hide Polls, OutPolled, Moves;
    PolledLog(c, n, v);
    RestPolled(c, n, v);
  }

  // ---------------------------------------------------------------------- whole steps

  /** Replacing one node, its disk and the history by others that are in order. */
  lemma RebuildPolled(s: Cluster, t: Cluster, v: Id)
    requires Polled(s) && v in s.nodes && v in t.nodes && v in t.disk
    requires t.nodes == s.nodes[v := t.nodes[v]] && t.disk == s.disk[v := t.disk[v]] && t.nextReadCtx.Keys == s.nextReadCtx.Keys
    requires Polls(t.core) && Moves(s.core, t.core, v)
    requires NodePolled(t.core, t.nodes[v], v) && t.nodes[v].msgs == [] && DiskPolled(t.nodes[v], t.disk[v])
    requires forall m :: m in t.net && m !in s.net ==> MsgPolled(t.core, m)
    ensures Polled(t)
  {
    hide Polls, Moves, NodePolled, DiskPolled, MsgPolled;
    MovesIds(s.core, t.core, v);
    forall u | u in t.nodes
      ensures NodePolled(t.core, t.nodes[u], u)
    {
      if u != v { OtherPolled(s.core, t.core, v, s.nodes[u], u); }
    }
    forall m | m in t.net
      ensures MsgPolled(t.core, m)
    {
      if m in s.net { MsgKept(s.core, t.core, m); }
    }
  }

  lemma MovesIds(c: Core, d: Core, v: Id)
    requires Moves(c, d, v)
    ensures d.ids == c.ids && Grows(c, d)
  {
  }

  lemma DonePolled(s: Cluster, a: Action)
    requires Possible(s, a) && Persists(a) && HandledAt(s, a).Some? && LogOk(HandledAt(s, a).value.log) && Polled(s)
    ensures var t := Done(s, a, HandledAt(s, a).value); Polled(t) && Moves(s.core, t.core, a.v)
  {
    hide Polls, Moves, NodePolled, DiskPolled, Handled, History, Formed, Polled, Tracked;
    var n, v, r := s.nodes[a.v], a.v, HandledAt(s, a).value;
    HandledPolled(s, a);
    PolledNode(s, v);
    PolledLog(s.core, n, v);
    if a.Deliver? { PolledMsg(s, a.m); }
    DiskTracks(n, s.disk[v], a, s.nextReadCtx[v]);
    AdvancedPolled(History(s.core, n, r, a), n, s.disk[v], r, v);
    RebuildPolled(s, Done(s, a, r), v);
  }

  lemma DiskTracks(n: Node, d: Durable, a: Action, ctx: nat)
    requires DiskPolled(n, d) && LogOk(n.log) && Persists(a) && (a.Deliver? && a.m.body.AppendEntries? ==> EntriesOk(a.m.body.prevIndex, a.m.body.entries))
    requires Handled(n, a, ctx).Some?
    ensures Tracked(n, Handled(n, a, ctx).value) && Synced(n, d) && LogOk(d.log)
  {
    hide Handled, Tracked, EntriesOk, LogOk;
    HandledTracked(n, a, ctx);
  }

  lemma AdvancedPolled(c: Core, n: Node, d: Durable, r: Node, v: Id)
    requires NodePolled(c, r, v) && LogOk(r.log) && Synced(n, d) && Tracked(n, r)
    ensures NodePolled(c, Advance(r), v) && Advance(r).msgs == [] && DiskPolled(Advance(r), DurableOf(r))
  {
    hide Synced, Tracked, VoteView;
    DoneSynced(n, d, r);
  }

  /** A process that starts over from its disk, with the polls as they are or grown to match. */
  lemma ReopenedPolled(s: Cluster, v: Id, e: Durable, c: Core)
    requires Polled(s) && v in s.nodes && Polls(c) && Moves(s.core, c, v) && LogOk(e.log) && VoteView(c, e.term, e.vote, v)
    requires e.snapshot.lastIndex == Base(e.log) && (e.snapshot.lastIndex == 0 ==> e.snapshot == NoSnapshot) && AtBoundary(e.log, e.snapshot)
    ensures Polled(Reopened(s, v, e, c))
  {
    hide Polls, Moves, MsgPolled, Polled, Synced, VoteView;
    PolledNode(s, v);
    MovesIds(s.core, c, v);
    RestartSynced(v, s.nodes[v].peers, e);
    RebuildPolled(s, Reopened(s, v, e, c), v);
  }

  lemma DiskSound(n: Node, d: Durable)
    requires DiskPolled(n, d)
    ensures d.snapshot.lastIndex == Base(d.log) && (d.snapshot.lastIndex == 0 ==> d.snapshot == NoSnapshot) && AtBoundary(d.log, d.snapshot)
  {
  }

  lemma DiskVote(c: Core, n: Node, v: Id, d: Durable)
    requires NodePolled(c, n, v) && DiskPolled(n, d)
    ensures VoteView(c, d.term, d.vote, v)
  {
  }

  lemma RestartPolled(s: Cluster, v: Id)
    requires Polled(s) && v in s.nodes && v in s.disk && LogOk(s.disk[v].log)
    ensures Polled(Reopened(s, v, s.disk[v], s.core)) && Moves(s.core, s.core, v)
  {
    hide Polls, Moves, NodePolled, DiskPolled, Polled, VoteView;
    PolledNode(s, v);
    DiskSound(s.nodes[v], s.disk[v]);
    DiskVote(s.core, s.nodes[v], v, s.disk[v]);
    MovesRefl(s.core, v);
    ReopenedPolled(s, v, s.disk[v], s.core);
  }

  lemma CompactPolled(s: Cluster, v: Id, index: nat, data: Bytes)
    requires Polled(s) && v in s.nodes && LogOk(s.nodes[v].log) && !CompactPanics(s.nodes[v], index)
    ensures Polled(s.(nodes := s.nodes[v := AfterCompact(s.nodes[v], index, data)]))
  {
    hide Polls, Moves, MsgPolled, Polled, VoteView;
    PolledNode(s, v);
    MovesRefl(s.core, v);
    var t := s.(nodes := s.nodes[v := AfterCompact(s.nodes[v], index, data)]);
    CompactKeeps(s.core, s.nodes[v], v, s.disk[v], index, data);
    assert t.disk == s.disk[v := t.disk[v]];
    RebuildPolled(s, t, v);
  }

  lemma CompactKeeps(c: Core, n: Node, v: Id, d: Durable, index: nat, data: Bytes)
    requires NodePolled(c, n, v) && DiskPolled(n, d) && !CompactPanics(n, index) && n.msgs == []
    ensures var r := AfterCompact(n, index, data); NodePolled(c, r, v) && DiskPolled(r, d) && r.msgs == []
  {
    hide VoteView, Synced;
    CompactSynced(n, d, index, data);
  }

  // -------------------------------------------------------------------------- crashes

  /** Everything got to disk before the crash. */
  lemma LatePolled(s: Cluster, a: Action)
    requires Possible(s, a) && Persists(a) && HandledAt(s, a).Some? && LogOk(HandledAt(s, a).value.log) && Polled(s)
    ensures var r := HandledAt(s, a).value;
            var c := History(s.core, s.nodes[a.v], r, a);
            Polled(Reopened(s, a.v, DurableOf(r), c)) && Moves(s.core, c, a.v)
  {
    hide Polls, Moves, NodePolled, DiskPolled, Handled, History, Formed, Polled, Tracked, VoteView;
    var n, v, r := s.nodes[a.v], a.v, HandledAt(s, a).value;
    HandledPolled(s, a);
    PolledNode(s, v);
    PolledLog(s.core, n, v);
    if a.Deliver? { PolledMsg(s, a.m); }
    DiskTracks(n, s.disk[v], a, s.nextReadCtx[v]);
    var c := History(s.core, n, r, a);
    AdvancedPolled(c, n, s.disk[v], r, v);
    DiskSound(Advance(r), DurableOf(r));
    DiskVote(c, Advance(r), v, DurableOf(r));
    ReopenedPolled(s, v, DurableOf(r), c);
  }

  /** How the polls stand after a crash that left something in between. */
  lemma TornPolls(c: Core, n: Node, v: Id, b: Action, ctx: nat, d: Durable, e: Durable)
    requires Polls(c) && NodePolled(c, n, v) && DiskPolled(n, d) && LogOk(n.log) && Persists(b) && b.v == v
    requires b.Deliver? ==> b.m.to == v && (b.m.body.AppendEntries? ==> EntriesOk(b.m.body.prevIndex, b.m.body.entries))
    requires Handled(n, b, ctx).Some? && LogOk(Handled(n, b, ctx).value.log) && LogOk(e.log)
    requires Recoverable(d, Handled(n, b, ctx).value, e) && e != d && e != DurableOf(Handled(n, b, ctx).value)
    ensures n.id in c.term && n.id in c.log && c.term[v] <= e.term
    ensures VoteView(Raise(c, v, e.term), e.term, e.vote, v) && SamePolls(Raise(c, v, e.term), HistCrash(c, n, Handled(n, b, ctx).value, b, d, e))
  {
    hide Polls, NodePolled, DiskPolled, Handled, Tracked, Recoverable, Rewrote, Match, Append, EntriesOk;
    var r := Handled(n, b, ctx).value;
    PolledLog(c, n, v);
    DiskTracks(n, d, b, ctx);
    TornLeaves(n, d, r, e);
    CrashBetween(n, d, r, e);
    assert n.unstableIndex == LastIndex(n.log) + 1 && n.snapshot.lastIndex == Base(n.log);
    NotBoth(n, r);
    HandledTracked(n, b, ctx);
    TornTerm(c, n, v, b, ctx);
    if b.Propose? && |n.log| <= |e.log| { AppendSame(c, v, e.log[|n.log|..]); }
    assert SamePolls(Raise(c, v, e.term), HistCrash(c, n, r, b, d, e)) by { CrashHistory(c, n, r, b, d, e); }
  }

  lemma CrashHistory(c: Core, n: Node, r: Node, b: Action, d: Durable, e: Durable)
    requires n.id in c.term && n.id in c.log && LogOk(n.log) && LogOk(e.log) && e != d && e != DurableOf(r)
    requires b.Propose? ==> Raise(c, n.id, e.term) == c
    ensures SamePolls(Raise(c, n.id, e.term), HistCrash(c, n, r, b, d, e))
  {
  }

  /** Only a proposal, which keeps term and vote, or a leader's message can be cut short. */
  lemma TornTerm(c: Core, n: Node, v: Id, b: Action, ctx: nat)
    requires Polls(c) && NodePolled(c, n, v) && LogOk(n.log) && n.unstableIndex == LastIndex(n.log) + 1
    requires b.Propose? || (b.Deliver? && b.m.body.AppendEntries? && b.m.to == v && EntriesOk(b.m.body.prevIndex, b.m.body.entries))
    requires Handled(n, b, ctx).Some?
    ensures var r := Handled(n, b, ctx).value;
            && v in c.term && c.term[v] <= r.currentTerm && VoteView(Raise(c, v, r.currentTerm), r.currentTerm, r.votedFor, v)
            && (b.Propose? ==> Raise(c, v, r.currentTerm) == c)
  {
    hide Polls, AfterPropose, AfterAppend;
    PolledLog(c, n, v);
    RaiseNothing(c, n, v);
    if b.Propose? {
      ProposeFacts(n, b.datas);
    } else {
      AppendHardState(n, b.m);
      HandledAppend(n, b, ctx);
      if b.m.term >= n.currentTerm { FollowSeat(c, n, v, b.m.term); }
    }
  }

  /** Part of it got to disk. */
  lemma MidPolled(s: Cluster, v: Id, b: Action, ctx: nat, e: Durable)
    requires v in s.nodes && v in s.disk && LogOk(s.nodes[v].log) && LogOk(s.disk[v].log) && Persists(b) && b.v == v && LogOk(e.log)
    requires b.Deliver? ==> b.m.to == v && (b.m.body.AppendEntries? ==> EntriesOk(b.m.body.prevIndex, b.m.body.entries))
    requires Handled(s.nodes[v], b, ctx).Some? && LogOk(Handled(s.nodes[v], b, ctx).value.log)
    requires Recoverable(s.disk[v], Handled(s.nodes[v], b, ctx).value, e) && e != s.disk[v] && e != DurableOf(Handled(s.nodes[v], b, ctx).value)
    requires s.nodes[v].id in s.core.term && s.nodes[v].id in s.core.log && Polled(s)
    ensures var h := HistCrash(s.core, s.nodes[v], Handled(s.nodes[v], b, ctx).value, b, s.disk[v], e);
            Polled(Reopened(s, v, e, h)) && Moves(s.core, h, v)
  {
    hide Polls, Moves, NodePolled, DiskPolled, Handled, Polled, VoteView, HistCrash, Recoverable, Tracked, Synced;
    PolledNode(s, v);
    var n, d, c := s.nodes[v], s.disk[v], s.core;
    var r := Handled(n, b, ctx).value;
    TornPolls(c, n, v, b, ctx, d, e);
    DiskTracks(n, d, b, ctx);
    TornLeaves(n, d, r, e);
    DiskSound(n, d);
    RaisePolls(c, v, e.term);
    var h := HistCrash(c, n, r, b, d, e);
    SamePollsKept(c, Raise(c, v, e.term), h, v);
    SameVote(Raise(c, v, e.term), h, e.term, e.vote, v);
    ReopenedPolled(s, v, e, h);
  }

  lemma SameVote(c: Core, d: Core, term: nat, vote: Id, v: Id)
    requires SamePolls(c, d) && VoteView(c, term, vote, v)
    ensures VoteView(d, term, vote, v)
  {
  }

  lemma CrashPolled(s: Cluster, a: Action)
    requires Possible(s, a) && a.Crash? && Polled(s)
    ensures Polled(After(s, a)) && Moves(s.core, After(s, a).core, a.v)
  {
    hide Polls, Moves, NodePolled, DiskPolled, Handled, Polled, History, Formed, DurableOf, Recoverable;
    assert Possible(s, a.during);
    PolledNode(s, a.v);
    if a.left == DurableOf(HandledAt(s, a.during).value) {
      LatePolled(s, a.during);
    } else if a.left == s.disk[a.v] {
      RestartPolled(s, a.v);
    } else {
      PolledLog(s.core, s.nodes[a.v], a.v);
      if a.during.Deliver? { PolledMsg(s, a.during.m); }
      MidPolled(s, a.v, a.during, s.nextReadCtx[a.v], a.left);
    }
  }

  /** Every step that is possible keeps the polls. */
  lemma PolledStep(s: Cluster, a: Action)
    requires Possible(s, a) && Polled(s)
    ensures Polled(After(s, a)) && Moves(s.core, After(s, a).core, a.v)
  {
    hide Polled, Moves, Handled, History, Done, Reopened, HistCrash, CompactPanics;
    PolledFormed(s);
    match a
    case Restart(v) =>
      RestartPolled(s, v);
      ReopenedCore(s, v, s.disk[v], s.core);
    case Compact(v, index, data) =>
      MovesRefl(s.core, v);
      if CompactPanics(s.nodes[v], index) { RestartPolled(s, v); ReopenedCore(s, v, s.disk[v], s.core); } else { CompactPolled(s, v, index, data); }
    case Crash(_, _, _) => CrashPolled(s, a);
    case _ =>
      HandledLogOk(s.nodes[a.v], a, s.nextReadCtx[a.v]);
      if HandledAt(s, a).Some? { DonePolled(s, a); } else { RestartPolled(s, a.v); ReopenedCore(s, a.v, s.disk[a.v], s.core); }
  }

  // ------------------------------------------------------------------------------ runs

  lemma BlankPolled(c: Core, n: Node, v: Id)
    requires Unwritten(c, c.ids) && v in c.ids && Wired(c.ids, n, v) && n == NewNode(v, n.peers)
    ensures NodePolled(c, n, v) && DiskPolled(n, BlankDisk) && n.msgs == []
  {
    hide Wired;
  }

  lemma InitialPolled(s: Cluster)
    requires Initial(s)
    ensures Polled(s)
  {
    hide Wired, NodePolled, DiskPolled;
    forall v | v in s.nodes
      ensures NodePolled(s.core, s.nodes[v], v) && DiskPolled(s.nodes[v], s.disk[v]) && s.nodes[v].msgs == []
    {
      BlankPolled(s.core, s.nodes[v], v);
    }
  }

  lemma {:induction false} RunPolled(states: seq<Cluster>, actions: seq<Action>, i: nat)
    requires PossibleRun(states, actions) && i < |states|
    ensures Polled(states[i])
  {
    hide PossibleRun, Polled, Possible, After, Initial, Moves;
    PossibleStart(states, actions);
    if i == 0 {
      InitialPolled(states[0]);
    } else {
      RunPolled(states, actions, i - 1);
      PossibleStep(states, actions, i - 1);
      PolledStep(states[i - 1], actions[i - 1]);
    }
  }

  /** The polls of a run only grow. */
  lemma {:induction false} RunGrows(states: seq<Cluster>, actions: seq<Action>, i: nat, j: nat)
    requires PossibleRun(states, actions) && i <= j < |states|
    ensures Polled(states[i]) && Polled(states[j]) && Grows(states[i].core, states[j].core)
    decreases j
  {
    hide PossibleRun, Polled, Possible, After, Moves;
    PossibleStart(states, actions);
    RunPolled(states, actions, i);
    RunPolled(states, actions, j);
    if i < j {
      RunGrows(states, actions, i, j - 1);
      PossibleStep(states, actions, j - 1);
      PolledStep(states[j - 1], actions[j - 1]);
      MovesIds(states[j - 1].core, states[j].core, actions[j - 1].v);
      GrowsTrans(states[i].core, states[j - 1].core, states[j].core);
    }
  }

  lemma LeaderPolledAt(s: Cluster, v: Id)
    requires Polled(s) && v in s.nodes && s.nodes[v].role == Leader
    ensures s.nodes[v].currentTerm in s.core.lead && s.core.lead[s.nodes[v].currentTerm] == v
  {
    hide Polls, MsgPolled, VoteView, Wired, DiskPolled;
  }

  /** Election safety: two nodes that lead the same term, at whatever points of any possible run, are one node. */
  lemma ElectionSafety(states: seq<Cluster>, actions: seq<Action>, i: nat, j: nat, v: Id, w: Id)
    requires PossibleRun(states, actions) && i < |states| && j < |states| && v in states[i].nodes && w in states[j].nodes
    requires states[i].nodes[v].role == Leader && states[j].nodes[w].role == Leader
    requires states[i].nodes[v].currentTerm == states[j].nodes[w].currentTerm
    ensures v == w
  {
    hide PossibleRun, Polled;
    if i <= j { RunGrows(states, actions, i, j); } else { RunGrows(states, actions, j, i); }
    LeaderPolledAt(states[i], v);
    LeaderPolledAt(states[j], w);
  }
}
